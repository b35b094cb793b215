// pkg/bruh/format_bruh_trace.go: the library's own layouts. The stacked
// layout prints every unpacked element with its partial stack; the sourced
// layout prints the joined chain message and the combined stack; either may
// show five lines of source around each frame.
module BruhTrace {
  import opened Text
  import opened Chain
  import opened Util
  import opened StringBuilder
  import opened Colors
  import opened SourceLines
  import opened Unpacker

  const NoMessage: string := "<no message>"

  /** The marker of the frame's own line and the gutter after a line number. */
  const Arrow: char := '\U{2192}'
  const Gutter: string := "\U{2502}    "

  /** A message, or `<no message>` in its place when it is empty. */
  function Shown(msg: string): (r: string)
    ensures r != ""
    ensures msg != "" ==> r == msg
    ensures msg == "" ==> r == NoMessage
  {
    if msg == "" then NoMessage else msg
  }

  // ---- frame lines -----------------------------------------------------------

  /** `name (file:line)`, with the name and the file coloured. */
  function Location(f: Frame, colored: bool): string
  {
    Painted(colored, f.name, [CodeBrightCyan]) + " (" + Painted(colored, f.file, [CodeBrightGreen]) + ":" + Decimal(f.line) + ")"
  }

  /** One frame of the plain frame list. */
  function AtLine(f: Frame, colored: bool): string
  {
    "\n    at " + Location(f, colored)
  }

  function AtLines(st: seq<Frame>, colored: bool): string
  {
    Concat(seq(|st|, j requires 0 <= j < |st| => AtLine(st[j], colored)))
  }

  // ---- frames with source ----------------------------------------------------

  /** The start of source slot `k`: the arrow on the frame's own line (slot 2), an indent elsewhere. */
  function Marker(k: nat, colored: bool): string
  {
    if k == 2 then "\n  " + Painted(colored, [Arrow], [CodeBrightRed]) + " " else "\n    "
  }

  /**
   * Source slot `k`: nothing for a negative line number; otherwise the
   * marker, the line number right-aligned to `numDigits` (bold on the
   * frame's own line), the gutter and the source with tabs expanded (faint
   * except on the frame's own line).
   */
  function SlotText(k: nat, l: SourceLine, numDigits: int, colored: bool): string
  {
    if l.lineNum < 0 then ""
    else
      Marker(k, colored)
      + Repeat(' ', numDigits - DigitsInNumber(l.lineNum))
      + (if k == 2 then Painted(colored, Decimal(l.lineNum), [CodeBold]) else Decimal(l.lineNum))
      + Gutter
      + (if k == 2 then ExpandTabs(l.source) else Painted(colored, ExpandTabs(l.source), [CodeFaint]))
  }

  /** Go's `max` of the five slot line numbers. */
  function MaxLineNum(lines: seq<SourceLine>): (r: Int64)
    requires |lines| >= 5
    ensures forall k :: 0 <= k < 5 ==> lines[k].lineNum <= r
    ensures exists k :: 0 <= k < 5 && lines[k].lineNum == r
  {
    var a := if lines[0].lineNum < lines[1].lineNum then lines[1].lineNum else lines[0].lineNum;
    var b := if a < lines[2].lineNum then lines[2].lineNum else a;
    var c := if b < lines[3].lineNum then lines[3].lineNum else b;
    if c < lines[4].lineNum then lines[4].lineNum else c
  }

  /** The five source slots of one frame, aligned to the widest line number among them. */
  function Slots(lines: seq<SourceLine>, colored: bool): string
    requires |lines| >= 5
  {
    var numDigits := DigitsInNumber(MaxLineNum(lines));
    Concat(seq(5, k requires 0 <= k < 5 => SlotText(k, lines[k], numDigits, colored)))
  }

  /** What `formatSingleStackWithSourceCode` writes for one frame. */
  function SourcedFrame(f: Frame, lines: seq<SourceLine>, colored: bool): string
    requires |lines| >= 5
  {
    "\nat " + Location(f, colored) + Slots(lines, colored)
  }

  function SourcedFrames(st: seq<Frame>, src: seq<seq<SourceLine>>, colored: bool): string
    requires SlotsFit(src, |st|, 5)
  {
    Concat(seq(|st|, j requires 0 <= j < |st| => SourcedFrame(st[j], src[j], colored)))
  }

  // ---- the stacked layout ----------------------------------------------------

  /** The heading of an element: its message (or `<no message>`), after its type name when typed. */
  function Header(e: Element, colored: bool, typed: bool, typeName: Error -> string): string
  {
    if typed then
      Painted(colored, typeName(e.err), [CodeBold, CodeBrightRed]) + (if colored then CodeBold else "")
      + ": " + Shown(e.msg) + (if colored then CodeReset else "")
    else Painted(colored, Shown(e.msg), [CodeBold, CodeBrightRed])
  }

  /** The frames of an element: with source when source lines are at hand, as plain lines otherwise. */
  function ElementFrames(e: Element, src: Option<seq<seq<SourceLine>>>, colored: bool): string
    requires src.Some? ==> SlotsFit(src.value, |e.partialStack|, 5)
  {
    if src.Some? then (if |e.partialStack| > 0 then "\n" else "") + SourcedFrames(e.partialStack, src.value, colored)
    else AtLines(e.partialStack, colored)
  }

  /** The source lines of element `i`, when there are any. */
  function SourceOf(src: Option<seq<seq<seq<SourceLine>>>>, upk: seq<Element>, i: nat): (r: Option<seq<seq<SourceLine>>>)
    requires i < |upk| && (src.Some? ==> SourcesFit(src.value, upk, 5))
    ensures r.Some? <==> src.Some?
    ensures r.Some? ==> SlotsFit(r.value, |upk[i].partialStack|, 5)
  {
    if src.Some? then Some(src.value[i]) else None
  }

  /** Element `i` of the stacked layout, with a newline after it unless it is the last. */
  function StackedPiece(upk: seq<Element>, i: nat, colored: bool, typed: bool, typeName: Error -> string,
                        src: Option<seq<seq<seq<SourceLine>>>>): string
    requires i < |upk| && (src.Some? ==> SourcesFit(src.value, upk, 5))
  {
    Header(upk[i], colored, typed, typeName) + ElementFrames(upk[i], SourceOf(src, upk, i), colored)
    + (if i + 1 < |upk| then "\n" else "")
  }

  /** The text `formatBruhStacked` appends for an unpacked list. */
  function StackedText(upk: seq<Element>, colored: bool, typed: bool, typeName: Error -> string,
                       src: Option<seq<seq<seq<SourceLine>>>>): string
    requires src.Some? ==> SourcesFit(src.value, upk, 5)
  {
    Concat(seq(|upk|, i requires 0 <= i < |upk| => StackedPiece(upk, i, colored, typed, typeName, src)))
  }

  // ---- the sourced layout ----------------------------------------------------

  /**
   * The text `formatBruhSourced` appends: the joined message in bold red
   * (`<no message>` when it is empty), then the combined stack.
   */
  function SourcedText(joined: string, stack: seq<Frame>, colored: bool, src: Option<seq<seq<SourceLine>>>): string
    requires src.Some? ==> SlotsFit(src.value, |stack|, 5)
  {
    Painted(colored, Shown(joined), [CodeBold, CodeBrightRed])
    + (if |stack| == 0 then ""
       else if src.Some? then "\n" + SourcedFrames(stack, src.value, colored)
       else AtLines(stack, colored))
  }

  // ---- the writers -----------------------------------------------------------

  method WriteLocation(c: Colorer, f: Frame)
    requires c.builder.Valid()
    modifies c.builder
    ensures c.builder.Valid()
    ensures c.builder.buf == old(c.builder.buf) + Location(f, c.enabled)
  {
    var b := c.builder;
    ghost var s := b.buf;
    c.ColoredText(f.name, [CodeBrightCyan]);
    var _ := b.WriteString(" (");
    c.ColoredText(f.file, [CodeBrightGreen]);
    b.WriteByte(':');
    b.WriteInt(f.line);
    b.WriteByte(')');
    Regroup6(s, Painted(c.enabled, f.name, [CodeBrightCyan]), " (", Painted(c.enabled, f.file, [CodeBrightGreen]),
             ":", Decimal(f.line), ")");
  }

  /** The plain frame loop: one `\n    at name (file:line)` per frame. */
  method WriteAtLines(c: Colorer, st: seq<Frame>)
    requires c.builder.Valid()
    modifies c.builder
    ensures c.builder.Valid()
    ensures c.builder.buf == old(c.builder.buf) + AtLines(st, c.enabled)
  {
    var b := c.builder;
    ghost var lines := seq(|st|, j requires 0 <= j < |st| => AtLine(st[j], c.enabled));
    for j := 0 to |st|
      invariant b.Valid()
      invariant b.buf == old(b.buf) + Concat(lines[..j])
    {
      ghost var s := b.buf;
      var _ := b.WriteString("\n    at ");
      WriteLocation(c, st[j]);
      AppendAssoc(s, "\n    at ", Location(st[j], c.enabled));
      ConcatSnoc(lines, j);
      AppendAssoc(old(b.buf), Concat(lines[..j]), lines[j]);
    }
    assert lines[..|st|] == lines;
  }

  /** The padding loop: `n` spaces, none when `n` is not positive. */
  method WritePadding(b: StringBuilder, n: int)
    requires b.Valid()
    modifies b
    ensures b.Valid()
    ensures b.buf == old(b.buf) + Repeat(' ', n)
  {
    var l := 0;
    while l < n
      invariant b.Valid()
      invariant 0 <= l <= (if n < 0 then 0 else n)
      invariant b.buf == old(b.buf) + Repeat(' ', l)
      decreases n - l
    {
      b.WriteByte(' ');
      assert Repeat(' ', l + 1) == Repeat(' ', l) + [' '];
      l := l + 1;
    }
  }

  /** One source slot of `formatSingleStackWithSourceCode`. */
  method WriteSlot(c: Colorer, k: nat, l: SourceLine, numDigits: int)
    requires c.builder.Valid()
    modifies c.builder
    ensures c.builder.Valid()
    ensures c.builder.buf == old(c.builder.buf) + SlotText(k, l, numDigits, c.enabled)
  {
    var b := c.builder;
    var lineNum := l.lineNum;
    if lineNum >= 0 {
      ghost var s := b.buf;
      if k == 2 {
        var _ := b.WriteString("\n  ");
        c.ColoredText([Arrow], [CodeBrightRed]);
        b.WriteByte(' ');
        Regroup3(s, "\n  ", Painted(c.enabled, [Arrow], [CodeBrightRed]), " ");
      } else {
        var _ := b.WriteString("\n    ");
      }
      WritePadding(b, numDigits - DigitsInNumber(lineNum));
      if k == 2 {
        c.ColoredInt(lineNum, [CodeBold]);
      } else {
        b.WriteInt(lineNum);
      }
      var _ := b.WriteString(Gutter);
      var source := ExpandTabs(l.source);
      if k == 2 {
        var _ := b.WriteString(source);
      } else {
        c.ColoredText(source, [CodeFaint]);
      }
      Regroup5(s, Marker(k, c.enabled), Repeat(' ', numDigits - DigitsInNumber(lineNum)),
               if k == 2 then Painted(c.enabled, Decimal(lineNum), [CodeBold]) else Decimal(lineNum),
               Gutter, if k == 2 then source else Painted(c.enabled, source, [CodeFaint]));
    }
  }

  /** `formatSingleStackWithSourceCode`: the frame's location, then its five source slots. */
  method FormatSingleStackWithSourceCode(f: Frame, lines: seq<SourceLine>, c: Colorer)
    requires |lines| >= 5
    requires c.builder.Valid()
    modifies c.builder
    ensures c.builder.Valid()
    ensures c.builder.buf == old(c.builder.buf) + SourcedFrame(f, lines, c.enabled)
  {
    var b := c.builder;
    ghost var s := b.buf;
    var _ := b.WriteString("\nat ");
    WriteLocation(c, f);
    ghost var s1 := b.buf;
    var m := lines[0].lineNum;
    if m < lines[1].lineNum { m := lines[1].lineNum; }
    if m < lines[2].lineNum { m := lines[2].lineNum; }
    if m < lines[3].lineNum { m := lines[3].lineNum; }
    if m < lines[4].lineNum { m := lines[4].lineNum; }
    var numDigits := DigitsInNumber(m);
    ghost var slots := seq(5, k requires 0 <= k < 5 => SlotText(k, lines[k], numDigits, c.enabled));
    for k := 0 to 5
      invariant b.Valid()
      invariant b.buf == s1 + Concat(slots[..k])
    {
      ghost var t := b.buf;
      WriteSlot(c, k, lines[k], numDigits);
      ConcatSnoc(slots, k);
      AppendAssoc(s1, Concat(slots[..k]), slots[k]);
    }
    assert slots[..5] == slots;
    assert m == MaxLineNum(lines);
    Regroup3(s, "\nat ", Location(f, c.enabled), Slots(lines, c.enabled));
  }

  /** The loop over the frames of a stack, each with its source lines. */
  method WriteSourcedFrames(c: Colorer, st: seq<Frame>, src: seq<seq<SourceLine>>)
    requires SlotsFit(src, |st|, 5)
    requires c.builder.Valid()
    modifies c.builder
    ensures c.builder.Valid()
    ensures c.builder.buf == old(c.builder.buf) + SourcedFrames(st, src, c.enabled)
  {
    var b := c.builder;
    ghost var frames := seq(|st|, j requires 0 <= j < |st| => SourcedFrame(st[j], src[j], c.enabled));
    for j := 0 to |st|
      invariant b.Valid()
      invariant b.buf == old(b.buf) + Concat(frames[..j])
    {
      FormatSingleStackWithSourceCode(st[j], src[j], c);
      ConcatSnoc(frames, j);
      AppendAssoc(old(b.buf), Concat(frames[..j]), frames[j]);
    }
    assert frames[..|st|] == frames;
  }

  method WriteHeader(c: Colorer, e: Element, typed: bool, typeName: Error -> string)
    requires c.builder.Valid()
    modifies c.builder
    ensures c.builder.Valid()
    ensures c.builder.buf == old(c.builder.buf) + Header(e, c.enabled, typed, typeName)
  {
    var b := c.builder;
    var msg := e.msg;
    if msg == "" {
      msg := NoMessage;
    }
    if typed {
      ghost var s := b.buf;
      c.ColoredText(typeName(e.err), [CodeBold, CodeBrightRed]);
      c.Color([CodeBold]);
      assert Concat([CodeBold]) == CodeBold;
      var _ := b.WriteString(": ");
      var _ := b.WriteString(msg);
      c.Reset();
      Regroup5(s, Painted(c.enabled, typeName(e.err), [CodeBold, CodeBrightRed]), if c.enabled then CodeBold else "",
               ": ", msg, if c.enabled then CodeReset else "");
    } else {
      c.ColoredText(msg, [CodeBold, CodeBrightRed]);
    }
  }

  /** The body of the element loop of `formatBruhStacked`. */
  method WriteStackedPiece(c: Colorer, upk: seq<Element>, i: nat, typed: bool, typeName: Error -> string,
                           src: Option<seq<seq<seq<SourceLine>>>>)
    requires i < |upk| && (src.Some? ==> SourcesFit(src.value, upk, 5))
    requires c.builder.Valid()
    modifies c.builder
    ensures c.builder.Valid()
    ensures c.builder.buf == old(c.builder.buf) + StackedPiece(upk, i, c.enabled, typed, typeName, src)
  {
    var b := c.builder;
    var e := upk[i];
    ghost var s := b.buf;
    WriteHeader(c, e, typed, typeName);
    ghost var s1 := b.buf;
    if src.Some? {
      if |e.partialStack| > 0 {
        var _ := b.WriteString("\n");
      }
      WriteSourcedFrames(c, e.partialStack, src.value[i]);
      AppendAssoc(s1, if |e.partialStack| > 0 then "\n" else "", SourcedFrames(e.partialStack, src.value[i], c.enabled));
    } else {
      WriteAtLines(c, e.partialStack);
    }
    if i < |upk| - 1 {
      var _ := b.WriteString("\n");
    }
    Regroup3(s, Header(e, c.enabled, typed, typeName), ElementFrames(e, SourceOf(src, upk, i), c.enabled),
             if i + 1 < |upk| then "\n" else "");
  }

  /** The element loop of `formatBruhStacked`. */
  method WriteStacked(c: Colorer, upk: seq<Element>, typed: bool, typeName: Error -> string,
                      src: Option<seq<seq<seq<SourceLine>>>>)
    requires src.Some? ==> SourcesFit(src.value, upk, 5)
    requires c.builder.Valid()
    modifies c.builder
    ensures c.builder.Valid()
    ensures c.builder.buf == old(c.builder.buf) + StackedText(upk, c.enabled, typed, typeName, src)
  {
    var builder := c.builder;
    ghost var pieces := seq(|upk|, i requires 0 <= i < |upk| => StackedPiece(upk, i, c.enabled, typed, typeName, src));
    for i := 0 to |upk|
      invariant builder.Valid()
      invariant builder.buf == old(builder.buf) + Concat(pieces[..i])
    {
      WriteStackedPiece(c, upk, i, typed, typeName, src);
      ConcatSnoc(pieces, i);
      AppendAssoc(old(builder.buf), Concat(pieces[..i]), pieces[i]);
    }
    assert pieces[..|upk|] == pieces;
  }

  /**
   * `formatBruhStacked`: for a nil error the incoming bytes unchanged;
   * otherwise the incoming bytes followed by every unpacked element. The
   * source lines are used only when requested and fetched without error
   * (`fetched` is what `GetSourceLines(2, 120, true)` returns, `None` for
   * its error).
   */
  method FormatBruhStacked(b: string, u: Unpacker, colored: bool, sourced: bool, typed: bool,
                           typeName: Error -> string, fetched: Option<seq<seq<seq<SourceLine>>>>)
    returns (out: string)
    requires u.Valid()
    requires fetched.Some? ==> SourcesFit(fetched.value, Unpacked(u.err, u.unpackAll, u.resolve), 5)
    modifies u
    ensures u.Valid() && u.err == old(u.err) && u.unpackAll == old(u.unpackAll)
    ensures u.err.None? ==> out == b
    ensures u.err.Some? ==>
      out == b + StackedText(Unpacked(u.err, u.unpackAll, u.resolve), colored, typed, typeName,
                             if sourced then fetched else None)
  {
    if u.err.None? {
      return b;
    }
    var upk := u.Unpack();
    var src := if sourced then fetched else None;
    var builder := new StringBuilder(b, |b|);
    var c := new Colorer(builder, colored);
    WriteStacked(c, upk, typed, typeName, src);
    out := builder.String();
  }

  /** The bold red chain message of `formatBruhSourced`, `<no message>` when nothing was joined. */
  method WriteChainMessage(c: Colorer, u: Unpacker)
    requires c.builder.Valid()
    modifies c.builder
    ensures c.builder.Valid()
    ensures c.builder.buf == old(c.builder.buf) + Painted(c.enabled, Shown(Join(MessagePieces(u.err), ": ")), [CodeBold, CodeBrightRed])
  {
    var builder := c.builder;
    ghost var s0 := builder.buf;
    c.Color([CodeBold, CodeBrightRed]);
    var emptyLen := builder.Len();
    ghost var s := builder.buf;
    u.AppendMessageBuilder(builder);
    ghost var joined := Join(MessagePieces(u.err), ": ");
    if builder.Len() == emptyLen {
      var _ := builder.WriteString(NoMessage);
    }
    assert builder.buf == s + Shown(joined);
    c.Reset();
    Regroup3(s0, if c.enabled then Concat([CodeBold, CodeBrightRed]) else "", Shown(joined), if c.enabled then CodeReset else "");
  }

  /** The frame part of `formatBruhSourced`: nothing for an empty stack. */
  method WriteCombinedFrames(c: Colorer, stack: seq<Frame>, src: Option<seq<seq<SourceLine>>>)
    requires src.Some? ==> SlotsFit(src.value, |stack|, 5)
    requires c.builder.Valid()
    modifies c.builder
    ensures c.builder.Valid()
    ensures c.builder.buf == old(c.builder.buf) +
      (if |stack| == 0 then "" else if src.Some? then "\n" + SourcedFrames(stack, src.value, c.enabled)
       else AtLines(stack, c.enabled))
  {
    var builder := c.builder;
    if |stack| != 0 {
      if src.Some? {
        ghost var s := builder.buf;
        builder.WriteByte('\n');
        WriteSourcedFrames(c, stack, src.value);
        AppendAssoc(s, "\n", SourcedFrames(stack, src.value, c.enabled));
      } else {
        WriteAtLines(c, stack);
      }
    }
  }

  /**
   * `formatBruhSourced`: for a nil error the incoming bytes unchanged;
   * otherwise the incoming bytes, the chain message as `AppendMessageBuilder`
   * joins it and the combined stack. `fetched` is what the combined stack's
   * `GetSourceLines(2, 120, true)` returns, `None` for its error.
   */
  method FormatBruhSourced(b: string, u: Unpacker, colored: bool, sourced: bool,
                           fetched: Option<seq<seq<SourceLine>>>)
    returns (out: string)
    requires u.Valid()
    requires fetched.Some? ==> SlotsFit(fetched.value, |CombinedFrames(u.err, u.resolve, u.isGlobal)|, 5)
    modifies u
    ensures u.Valid() && u.err == old(u.err)
    ensures u.err.None? ==> out == b
    ensures u.err.Some? ==>
      out == b + SourcedText(Join(MessagePieces(u.err), ": "), CombinedFrames(u.err, u.resolve, u.isGlobal), colored,
                             if sourced then fetched else None)
  {
    if u.err.None? {
      return b;
    }
    var stack := u.CombinedStack();
    var src := if sourced then fetched else None;
    var builder := new StringBuilder(b, |b|);
    var c := new Colorer(builder, colored);
    WriteChainMessage(c, u);
    WriteCombinedFrames(c, stack, src);
    AppendAssoc(b, Painted(colored, Shown(Join(MessagePieces(u.err), ": ")), [CodeBold, CodeBrightRed]),
                if |stack| == 0 then "" else if src.Some? then "\n" + SourcedFrames(stack, src.value, colored)
                else AtLines(stack, colored));
    out := builder.String();
  }

  // ---- what the layouts promise ------------------------------------------

  /** A frame line as the tests spell it out, without colour. */
  function PlainAtLine(f: Frame): string
  {
    "\n    at " + f.name + " (" + f.file + ":" + Decimal(f.line) + ")"
  }

  /** The uncoloured heading of an element: `type: message` when typed, the message otherwise. */
  function PlainHeading(e: Element, typed: bool, typeName: Error -> string): string
  {
    (if typed then typeName(e.err) + ": " else "") + Shown(e.msg)
  }

  /** One `\n    at name (file:line)` per frame, in order. */
  function PlainFrames(st: seq<Frame>): string
  {
    Concat(seq(|st|, j requires 0 <= j < |st| => PlainAtLine(st[j])))
  }

  /** The uncoloured, unsourced frame list is the plain frame lines. */
  lemma PlainAtLines(st: seq<Frame>)
    ensures AtLines(st, false) == PlainFrames(st)
  {
    forall j | 0 <= j < |st|
      ensures AtLine(st[j], false) == PlainAtLine(st[j])
    {
      var f := st[j];
      Regroup5("\n    at ", f.name, " (", f.file, ":", Decimal(f.line));
      AppendAssoc("\n    at ", f.name + " (" + f.file + ":" + Decimal(f.line), ")");
    }
    assert seq(|st|, j requires 0 <= j < |st| => AtLine(st[j], false))
        == seq(|st|, j requires 0 <= j < |st| => PlainAtLine(st[j]));
  }

  /**
   * The plain stacked layout: each element's heading followed by its
   * partial-stack frames, elements separated by one newline and none after
   * the last.
   */
  lemma PlainStackedLayout(upk: seq<Element>, typed: bool, typeName: Error -> string)
    ensures StackedText(upk, false, typed, typeName, None)
         == Join(seq(|upk|, i requires 0 <= i < |upk| => PlainHeading(upk[i], typed, typeName) + PlainFrames(upk[i].partialStack)),
                 "\n")
  {
    var parts := seq(|upk|, i requires 0 <= i < |upk| => PlainHeading(upk[i], typed, typeName) + PlainFrames(upk[i].partialStack));
    var pieces := seq(|upk|, i requires 0 <= i < |upk| => StackedPiece(upk, i, false, typed, typeName, None));
    forall i | 0 <= i < |upk|
      ensures pieces[i] == parts[i] + (if i + 1 < |upk| then "\n" else "")
    {
      assert Header(upk[i], false, typed, typeName) == PlainHeading(upk[i], typed, typeName);
      PlainAtLines(upk[i].partialStack);
    }
    ConcatIsJoin(parts, "\n", pieces);
  }

  /** A slot is printed exactly when its line number is not negative. */
  lemma SlotShownIffNotNegative(k: nat, l: SourceLine, numDigits: int, colored: bool)
    ensures SlotText(k, l, numDigits, colored) == "" <==> l.lineNum < 0
  {
    if l.lineNum >= 0 {
      assert |SlotText(k, l, numDigits, colored)| >= |Marker(k, colored)| > 0;
    }
  }

  /**
   * Line numbers are right-aligned: the padding and the number of every
   * printed slot take the width of the largest line number of the frame
   * (for line numbers below 10^9, where the digit count is exact).
   */
  lemma AlignedLineNumbers(lines: seq<SourceLine>, k: nat)
    requires |lines| >= 5 && k < 5
    requires forall j :: 0 <= j < 5 ==> lines[j].lineNum < 1000000000
    requires lines[k].lineNum >= 0
    ensures var numDigits := DigitsInNumber(MaxLineNum(lines));
      |Repeat(' ', numDigits - DigitsInNumber(lines[k].lineNum)) + Decimal(lines[k].lineNum)| == numDigits
  {
    var m := MaxLineNum(lines);
    DigitsInNumberMonotone(lines[k].lineNum, m);
    DigitsInNumberIsDecimalWidth(lines[k].lineNum);
  }

  /**
   * A slot `getSourceLinesFromFile` never fills (a line before the start of
   * the file keeps line number 0) is still printed, as line 0 with no source.
   */
  lemma UnfilledSlotPrintsLineZero(k: nat, numDigits: int)
    requires k != 2
    ensures SlotText(k, SourceLine(0, ""), numDigits, false)
         == "\n    " + Repeat(' ', numDigits - 1) + "0" + Gutter
  {
    assert DigitsInNumber(0) == 1;
    assert Decimal(0) == "0";
    assert ExpandTabs("") == "";
  }

  // ---- colour only adds escape sequences -----------------------------------

  predicate FrameIsPlain(f: Frame)
  {
    Esc !in f.name && Esc !in f.file
  }

  predicate FramesArePlain(st: seq<Frame>)
  {
    forall j :: 0 <= j < |st| ==> FrameIsPlain(st[j])
  }

  predicate LinesArePlain(src: seq<seq<SourceLine>>)
  {
    forall j, k :: 0 <= j < |src| && 0 <= k < |src[j]| ==> Esc !in src[j][k].source
  }

  /** No message, type name, frame or source line of an element contains an escape byte. */
  predicate ElementIsPlain(e: Element, typed: bool, typeName: Error -> string, src: Option<seq<seq<SourceLine>>>)
  {
    && Esc !in e.msg
    && (typed ==> Esc !in typeName(e.err))
    && FramesArePlain(e.partialStack)
    && (src.Some? ==> LinesArePlain(src.value))
  }

  lemma ReadsAsPaintedOff(text: string, codes: seq<string>)
    requires AllCodes(codes) && Esc !in text
    ensures ReadsAs(Painted(true, text, codes), Painted(false, text, codes))
  {
    ReadsAsPainted(true, text, codes);
  }

  lemma LocationReads(f: Frame)
    requires FrameIsPlain(f)
    ensures ReadsAs(Location(f, true), Location(f, false))
  {
    NamedCodes();
    ReadsAsPaintedOff(f.name, [CodeBrightCyan]);
    ReadsAsPaintedOff(f.file, [CodeBrightGreen]);
    ReadsAsPlain(" (");
    ReadsAsPlain(":");
    ReadsAsPlain(")");
    ReadsAsDecimal(f.line);
    var a := Painted(true, f.name, [CodeBrightCyan]);
    var b := Painted(true, f.file, [CodeBrightGreen]);
    ReadsAs5(a, f.name, " (", " (", b, f.file, ":", ":", Decimal(f.line), Decimal(f.line));
    ReadsAsAppend(a + " (" + b + ":" + Decimal(f.line), f.name + " (" + f.file + ":" + Decimal(f.line), ")", ")");
  }

  lemma AtLinesRead(st: seq<Frame>)
    requires FramesArePlain(st)
    ensures ReadsAs(AtLines(st, true), AtLines(st, false))
  {
    var on := seq(|st|, j requires 0 <= j < |st| => AtLine(st[j], true));
    var off := seq(|st|, j requires 0 <= j < |st| => AtLine(st[j], false));
    forall j | 0 <= j < |st|
      ensures ReadsAs(on[j], off[j])
    {
      LocationReads(st[j]);
      ReadsAsPlain("\n    at ");
      ReadsAsAppend("\n    at ", "\n    at ", Location(st[j], true), Location(st[j], false));
    }
    ReadsAsConcat(on, off);
  }

  lemma MarkerReads(k: nat)
    ensures ReadsAs(Marker(k, true), Marker(k, false))
  {
    if k == 2 {
      NamedCodes();
      ReadsAsPlain("\n  ");
      ReadsAsPlain(" ");
      ReadsAsPaintedOff([Arrow], [CodeBrightRed]);
      ReadsAs3("\n  ", "\n  ", Painted(true, [Arrow], [CodeBrightRed]), [Arrow], " ", " ");
    } else {
      ReadsAsPlain("\n    ");
    }
  }

  lemma SlotReads(k: nat, l: SourceLine, numDigits: int)
    requires Esc !in l.source
    ensures ReadsAs(SlotText(k, l, numDigits, true), SlotText(k, l, numDigits, false))
  {
    if l.lineNum >= 0 {
      NamedCodes();
      var pad := Repeat(' ', numDigits - DigitsInNumber(l.lineNum));
      var src := ExpandTabs(l.source);
      ExpandTabsKeepsEscapesOut(l.source);
      MarkerReads(k);
      ReadsAsPlain(pad);
      ReadsAsPlain(Gutter);
      ReadsAsDecimal(l.lineNum);
      ReadsAsPaintedOff(Decimal(l.lineNum), [CodeBold]);
      ReadsAsPlain(src);
      ReadsAsPaintedOff(src, [CodeFaint]);
      ReadsAs5(Marker(k, true), Marker(k, false), pad, pad,
               if k == 2 then Painted(true, Decimal(l.lineNum), [CodeBold]) else Decimal(l.lineNum),
               if k == 2 then Painted(false, Decimal(l.lineNum), [CodeBold]) else Decimal(l.lineNum),
               Gutter, Gutter,
               if k == 2 then src else Painted(true, src, [CodeFaint]),
               if k == 2 then src else Painted(false, src, [CodeFaint]));
    } else {
      ReadsAsPlain("");
    }
  }

  lemma SourcedFrameReads(f: Frame, lines: seq<SourceLine>)
    requires |lines| >= 5 && FrameIsPlain(f)
    requires forall k :: 0 <= k < |lines| ==> Esc !in lines[k].source
    ensures ReadsAs(SourcedFrame(f, lines, true), SourcedFrame(f, lines, false))
  {
    var numDigits := DigitsInNumber(MaxLineNum(lines));
    var on := seq(5, k requires 0 <= k < 5 => SlotText(k, lines[k], numDigits, true));
    var off := seq(5, k requires 0 <= k < 5 => SlotText(k, lines[k], numDigits, false));
    forall k | 0 <= k < 5
      ensures ReadsAs(on[k], off[k])
    {
      SlotReads(k, lines[k], numDigits);
    }
    ReadsAsConcat(on, off);
    LocationReads(f);
    ReadsAsPlain("\nat ");
    ReadsAsAppend("\nat ", "\nat ", Location(f, true), Location(f, false));
    ReadsAsAppend("\nat " + Location(f, true), "\nat " + Location(f, false), Slots(lines, true), Slots(lines, false));
  }

  lemma SourcedFramesRead(st: seq<Frame>, src: seq<seq<SourceLine>>)
    requires SlotsFit(src, |st|, 5) && FramesArePlain(st) && LinesArePlain(src)
    ensures ReadsAs(SourcedFrames(st, src, true), SourcedFrames(st, src, false))
  {
    var on := seq(|st|, j requires 0 <= j < |st| => SourcedFrame(st[j], src[j], true));
    var off := seq(|st|, j requires 0 <= j < |st| => SourcedFrame(st[j], src[j], false));
    forall j | 0 <= j < |st|
      ensures ReadsAs(on[j], off[j])
    {
      SourcedFrameReads(st[j], src[j]);
    }
    ReadsAsConcat(on, off);
  }

  lemma HeaderReads(e: Element, typed: bool, typeName: Error -> string)
    requires Esc !in e.msg && (typed ==> Esc !in typeName(e.err))
    ensures ReadsAs(Header(e, true, typed, typeName), Header(e, false, typed, typeName))
  {
    NamedCodes();
    assert Esc !in Shown(e.msg);
    if typed {
      var t := Painted(true, typeName(e.err), [CodeBold, CodeBrightRed]);
      ReadsAsPaintedOff(typeName(e.err), [CodeBold, CodeBrightRed]);
      ReadsAsCode(CodeBold);
      ReadsAsCode(CodeReset);
      ReadsAsPlain(": ");
      ReadsAsPlain(Shown(e.msg));
      ReadsAsAppend(t, typeName(e.err), CodeBold, "");
      ReadsAsAppend(t + CodeBold, typeName(e.err) + "", ": ", ": ");
      ReadsAsAppend(t + CodeBold + ": ", typeName(e.err) + "" + ": ", Shown(e.msg), Shown(e.msg));
      ReadsAsAppend(t + CodeBold + ": " + Shown(e.msg), typeName(e.err) + "" + ": " + Shown(e.msg), CodeReset, "");
    } else {
      ReadsAsPaintedOff(Shown(e.msg), [CodeBold, CodeBrightRed]);
    }
  }

  lemma ElementFramesRead(e: Element, src: Option<seq<seq<SourceLine>>>)
    requires src.Some? ==> SlotsFit(src.value, |e.partialStack|, 5)
    requires FramesArePlain(e.partialStack) && (src.Some? ==> LinesArePlain(src.value))
    ensures ReadsAs(ElementFrames(e, src, true), ElementFrames(e, src, false))
  {
    if src.Some? {
      var nl := if |e.partialStack| > 0 then "\n" else "";
      ReadsAsPlain(nl);
      SourcedFramesRead(e.partialStack, src.value);
      ReadsAsAppend(nl, nl, SourcedFrames(e.partialStack, src.value, true), SourcedFrames(e.partialStack, src.value, false));
    } else {
      AtLinesRead(e.partialStack);
    }
  }

  lemma StackedPieceReads(upk: seq<Element>, i: nat, typed: bool, typeName: Error -> string,
                          src: Option<seq<seq<seq<SourceLine>>>>)
    requires i < |upk| && (src.Some? ==> SourcesFit(src.value, upk, 5))
    requires ElementIsPlain(upk[i], typed, typeName, SourceOf(src, upk, i))
    ensures ReadsAs(StackedPiece(upk, i, true, typed, typeName, src), StackedPiece(upk, i, false, typed, typeName, src))
  {
    var e, es := upk[i], SourceOf(src, upk, i);
    var nl := if i + 1 < |upk| then "\n" else "";
    HeaderReads(e, typed, typeName);
    ElementFramesRead(e, es);
    ReadsAsPlain(nl);
    ReadsAs3(Header(e, true, typed, typeName), Header(e, false, typed, typeName),
             ElementFrames(e, es, true), ElementFrames(e, es, false), nl, nl);
  }

  /**
   * Colour only adds escape sequences: with them removed, the coloured
   * stacked layout is the uncoloured one, as long as no message, type name,
   * frame or source line carries an escape byte of its own.
   */
  lemma StackedColourOnlyAddsEscapes(upk: seq<Element>, typed: bool, typeName: Error -> string,
                                     src: Option<seq<seq<seq<SourceLine>>>>)
    requires src.Some? ==> SourcesFit(src.value, upk, 5)
    requires forall i :: 0 <= i < |upk| ==> ElementIsPlain(upk[i], typed, typeName, SourceOf(src, upk, i))
    ensures StripAnsi(StackedText(upk, true, typed, typeName, src)) == StackedText(upk, false, typed, typeName, src)
  {
    var on := seq(|upk|, i requires 0 <= i < |upk| => StackedPiece(upk, i, true, typed, typeName, src));
    var off := seq(|upk|, i requires 0 <= i < |upk| => StackedPiece(upk, i, false, typed, typeName, src));
    forall i | 0 <= i < |upk|
      ensures ReadsAs(on[i], off[i])
    {
      StackedPieceReads(upk, i, typed, typeName, src);
    }
    ReadsAsConcat(on, off);
    Shows(StackedText(upk, true, typed, typeName, src), StackedText(upk, false, typed, typeName, src));
  }

  /** The same for the sourced layout. */
  lemma SourcedColourOnlyAddsEscapes(joined: string, stack: seq<Frame>, src: Option<seq<seq<SourceLine>>>)
    requires src.Some? ==> SlotsFit(src.value, |stack|, 5)
    requires Esc !in joined && FramesArePlain(stack) && (src.Some? ==> LinesArePlain(src.value))
    ensures StripAnsi(SourcedText(joined, stack, true, src)) == SourcedText(joined, stack, false, src)
  {
    NamedCodes();
    assert Esc !in Shown(joined);
    ReadsAsPaintedOff(Shown(joined), [CodeBold, CodeBrightRed]);
    var head1, head0 := Painted(true, Shown(joined), [CodeBold, CodeBrightRed]), Painted(false, Shown(joined), [CodeBold, CodeBrightRed]);
    if |stack| == 0 {
      ReadsAsPlain("");
      ReadsAsAppend(head1, head0, "", "");
    } else if src.Some? {
      SourcedFramesRead(stack, src.value);
      ReadsAsPlain("\n");
      ReadsAsAppend("\n", "\n", SourcedFrames(stack, src.value, true), SourcedFrames(stack, src.value, false));
      ReadsAsAppend(head1, head0, "\n" + SourcedFrames(stack, src.value, true), "\n" + SourcedFrames(stack, src.value, false));
    } else {
      AtLinesRead(stack);
      ReadsAsAppend(head1, head0, AtLines(stack, true), AtLines(stack, false));
    }
    Shows(SourcedText(joined, stack, true, src), SourcedText(joined, stack, false, src));
  }

  /** `<no message>` stands in exactly when the chain has no non-empty message to join. */
  lemma NoMessageExactlyWhenSilent(err: Option<Error>)
    ensures Join(MessagePieces(err), ": ") == "" <==> |MessagePieces(err)| == 0
  {
    JoinOfNonEmpty(MessagePieces(err), ": ");
  }
}
