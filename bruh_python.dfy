// pkg/bruh/format_python_traceback.go: a layout like Python's tracebacks,
// innermost error first, the most recent call at the bottom of each block.
module PythonTrace {
  import opened Text
  import opened Chain
  import opened StringBuilder
  import opened SourceLines
  import opened Unpacker
  import BruhFormat

  const TracebackTitle: string := "Traceback (most recent call last):"

  /** The source line `GetSourceLines(0, …)` gave for frame `j` of element `i`, when source is included. */
  function LineOf(upk: seq<Element>, src: Option<seq<seq<seq<SourceLine>>>>, i: nat, j: nat): (r: Option<string>)
    requires src.Some? ==> SourcesFit(src.value, upk, 1)
    requires i < |upk| && j < |upk[i].partialStack|
    ensures src.None? <==> r.None?
  {
    if src.Some? then Some(src.value[i][j][0].source) else None
  }

  /** Where a frame is: `  File "<file>", line <n>, in <name>`. */
  function FileLine(f: Frame): string
  {
    "  File \"" + f.file + "\", line " + Decimal(f.line) + ", in " + f.name
  }

  lemma FileLineOnNewLine(f: Frame)
    ensures "\n  File \"" + f.file + "\", line " + Decimal(f.line) + ", in " + f.name == "\n" + FileLine(f)
  {
    Regroup5("\n", "  File \"", f.file, "\", line ", Decimal(f.line), ", in ");
    AppendAssoc("\n", "  File \"" + f.file + "\", line " + Decimal(f.line) + ", in ", f.name);
  }

  /** One frame on a new line, then its indented source line when there is one. */
  function FrameLine(f: Frame, line: Option<string>): string
  {
    "\n" + FileLine(f) + (if line.Some? then "\n    " + line.value else "")
  }

  /** The frame lines of element `i` in the order they are written, last frame first. */
  function Lines(upk: seq<Element>, src: Option<seq<seq<seq<SourceLine>>>>, i: nat): (r: seq<string>)
    requires src.Some? ==> SourcesFit(src.value, upk, 1)
    requires i < |upk|
    ensures |r| == |upk[i].partialStack|
  {
    var n := |upk[i].partialStack|;
    seq(n, k requires 0 <= k < n => FrameLine(upk[i].partialStack[n - 1 - k], LineOf(upk, src, i, n - 1 - k)))
  }

  /** The frames of element `i`, last to first. */
  function FrameLines(upk: seq<Element>, src: Option<seq<seq<seq<SourceLine>>>>, i: nat): string
    requires src.Some? ==> SourcesFit(src.value, upk, 1)
    requires i < |upk|
  {
    Concat(Lines(upk, src, i))
  }

  /** The title, the frames and a newline, for an element with a partial stack; nothing otherwise. */
  function Heading(upk: seq<Element>, src: Option<seq<seq<seq<SourceLine>>>>, i: nat): (r: string)
    requires src.Some? ==> SourcesFit(src.value, upk, 1)
    requires i < |upk|
    ensures |upk[i].partialStack| == 0 <==> r == ""
    ensures |upk[i].partialStack| > 0 ==> HasPrefix(r, TracebackTitle)
  {
    if |upk[i].partialStack| > 0 then TracebackTitle + FrameLines(upk, src, i) + "\n" else ""
  }

  /** One element without the cause paragraph: heading, type name, `: message` when there is one. */
  function Block(upk: seq<Element>, typeName: Error -> string, src: Option<seq<seq<seq<SourceLine>>>>, i: nat): string
    requires src.Some? ==> SourcesFit(src.value, upk, 1)
    requires i < |upk|
  {
    Heading(upk, src, i) + typeName(upk[i].err) + BruhFormat.PyMessage(upk[i].msg)
  }

  /** Element `i` and, unless it is the outermost, the cause paragraph after it. */
  function Piece(upk: seq<Element>, typeName: Error -> string, src: Option<seq<seq<seq<SourceLine>>>>, i: nat): string
    requires src.Some? ==> SourcesFit(src.value, upk, 1)
    requires i < |upk|
  {
    Block(upk, typeName, src, i) + (if i > 0 then BruhFormat.DirectCause else "")
  }

  /** The pieces in the order they are written, innermost element first. */
  function Pieces(upk: seq<Element>, typeName: Error -> string, src: Option<seq<seq<seq<SourceLine>>>>): (r: seq<string>)
    requires src.Some? ==> SourcesFit(src.value, upk, 1)
    ensures |r| == |upk|
  {
    seq(|upk|, k requires 0 <= k < |upk| => Piece(upk, typeName, src, |upk| - 1 - k))
  }

  function PythonText(upk: seq<Element>, typeName: Error -> string, src: Option<seq<seq<seq<SourceLine>>>>): string
    requires src.Some? ==> SourcesFit(src.value, upk, 1)
  {
    Concat(Pieces(upk, typeName, src))
  }

  // ---- the writers ---------------------------------------------------------

  method WriteFrameLine(builder: StringBuilder, f: Frame, line: Option<string>)
    requires builder.Valid()
    modifies builder
    ensures builder.Valid()
    ensures builder.buf == old(builder.buf) + FrameLine(f, line)
  {
    ghost var s := builder.buf;
    var _ := builder.WriteString("\n  File \"");
    var _ := builder.WriteString(f.file);
    var _ := builder.WriteString("\", line ");
    builder.WriteInt(f.line);
    var _ := builder.WriteString(", in ");
    var _ := builder.WriteString(f.name);
    Regroup6(s, "\n  File \"", f.file, "\", line ", Decimal(f.line), ", in ", f.name);
    FileLineOnNewLine(f);
    ghost var s1 := builder.buf;
    if line.Some? {
      var _ := builder.WriteString("\n    ");
      var _ := builder.WriteString(line.value);
      AppendAssoc(s1, "\n    ", line.value);
    }
    AppendAssoc(s, "\n" + FileLine(f), if line.Some? then "\n    " + line.value else "");
  }

  /** Frame `j` of element `i`, with its source line when source is included. */
  method WriteFrameOf(builder: StringBuilder, upk: seq<Element>, src: Option<seq<seq<seq<SourceLine>>>>, i: nat, j: nat)
    requires src.Some? ==> SourcesFit(src.value, upk, 1)
    requires i < |upk| && j < |upk[i].partialStack| && builder.Valid()
    modifies builder
    ensures builder.Valid()
    ensures builder.buf == old(builder.buf) + FrameLine(upk[i].partialStack[j], LineOf(upk, src, i, j))
  {
    var line := if src.Some? then Some(src.value[i][j][0].source) else None;
    WriteFrameLine(builder, upk[i].partialStack[j], line);
  }

  /** The frame loop, from the last frame down to the first. */
  method WriteFrameLines(builder: StringBuilder, upk: seq<Element>, src: Option<seq<seq<seq<SourceLine>>>>, i: nat)
    requires src.Some? ==> SourcesFit(src.value, upk, 1)
    requires i < |upk| && builder.Valid()
    modifies builder
    ensures builder.Valid()
    ensures builder.buf == old(builder.buf) + FrameLines(upk, src, i)
  {
    var n := |upk[i].partialStack|;
    ghost var lines := Lines(upk, src, i);
    var j := n - 1;
    while j >= 0
      invariant -1 <= j < n
      invariant builder.Valid()
      invariant builder.buf == old(builder.buf) + Concat(lines[..n - 1 - j])
      decreases j
    {
      WriteFrameOf(builder, upk, src, i, j);
      ConcatSnoc(lines, n - 1 - j);
      AppendAssoc(old(builder.buf), Concat(lines[..n - 1 - j]), lines[n - 1 - j]);
      j := j - 1;
    }
    assert lines[..n] == lines;
  }

  /** The body of the element loop, without the cause paragraph. */
  method WriteBlock(builder: StringBuilder, upk: seq<Element>, typeName: Error -> string,
                    src: Option<seq<seq<seq<SourceLine>>>>, i: nat)
    requires src.Some? ==> SourcesFit(src.value, upk, 1)
    requires i < |upk| && builder.Valid()
    modifies builder
    ensures builder.Valid()
    ensures builder.buf == old(builder.buf) + Block(upk, typeName, src, i)
  {
    var upkElm := upk[i];
    ghost var s := builder.buf;
    if |upkElm.partialStack| > 0 {
      var _ := builder.WriteString(TracebackTitle);
      WriteFrameLines(builder, upk, src, i);
      builder.WriteByte('\n');
      Regroup3(s, TracebackTitle, FrameLines(upk, src, i), "\n");
    }
    ghost var s1 := builder.buf;
    var _ := builder.WriteString(typeName(upkElm.err));
    if upkElm.msg != "" {
      var _ := builder.WriteString(": ");
      var _ := builder.WriteString(upkElm.msg);
      AppendAssoc(s1 + typeName(upkElm.err), ": ", upkElm.msg);
    }
    Regroup3(s, Heading(upk, src, i), typeName(upkElm.err), BruhFormat.PyMessage(upkElm.msg));
  }

  /** Element `i` and, unless it is the outermost, the cause paragraph after it. */
  method WritePiece(builder: StringBuilder, upk: seq<Element>, typeName: Error -> string,
                    src: Option<seq<seq<seq<SourceLine>>>>, i: nat)
    requires src.Some? ==> SourcesFit(src.value, upk, 1)
    requires i < |upk| && builder.Valid()
    modifies builder
    ensures builder.Valid()
    ensures builder.buf == old(builder.buf) + Piece(upk, typeName, src, i)
  {
    ghost var s := builder.buf;
    WriteBlock(builder, upk, typeName, src, i);
    if i > 0 {
      var _ := builder.WriteString(BruhFormat.DirectCause);
    }
    AppendAssoc(s, Block(upk, typeName, src, i), if i > 0 then BruhFormat.DirectCause else "");
  }

  /** The element loop, innermost element first. */
  method WriteBlocks(builder: StringBuilder, upk: seq<Element>, typeName: Error -> string,
                     src: Option<seq<seq<seq<SourceLine>>>>)
    requires src.Some? ==> SourcesFit(src.value, upk, 1)
    requires builder.Valid()
    modifies builder
    ensures builder.Valid()
    ensures builder.buf == old(builder.buf) + PythonText(upk, typeName, src)
  {
    ghost var pieces := Pieces(upk, typeName, src);
    ghost var base := old(builder.buf);
    var i := |upk| - 1;
    ghost var k := 0;
    while i >= 0
      invariant -1 <= i < |upk| && k == |upk| - 1 - i
      invariant builder.Valid()
      invariant builder.buf == base + Concat(pieces[..k])
      decreases i
    {
      ghost var done := Concat(pieces[..k]);
      WritePiece(builder, upk, typeName, src, i);
      assert pieces[k] == Piece(upk, typeName, src, i);
      ConcatSnoc(pieces, k);
      AppendAssoc(base, done, pieces[k]);
      i := i - 1;
      k := k + 1;
    }
    assert pieces[..k] == pieces;
  }

  /**
   * `formatPythonTraceback`: the incoming bytes unchanged for a nil error,
   * otherwise followed by the traceback. `fetched` is what
   * `GetSourceLines(0, 120, true)` returns (`None` for its error); when it
   * fails the source lines are silently dropped.
   */
  method FormatPythonTraceback(b: string, u: Unpacker, includeSource: bool, typeName: Error -> string,
                               fetched: Option<seq<seq<seq<SourceLine>>>>)
    returns (out: string)
    requires u.Valid()
    requires fetched.Some? ==> SourcesFit(fetched.value, Unpacked(u.err, u.unpackAll, u.resolve), 1)
    modifies u
    ensures u.Valid() && u.err == old(u.err) && u.unpackAll == old(u.unpackAll)
    ensures u.err.None? ==> out == b
    ensures u.err.Some? ==>
      out == b + PythonText(Unpacked(u.err, u.unpackAll, u.resolve), typeName, if includeSource then fetched else None)
  {
    if u.err.None? {
      return b;
    }
    var upkErr := u.Unpack();
    var builder := new StringBuilder(b, |b|);
    var src := if includeSource && fetched.Some? then fetched else None;
    WriteBlocks(builder, upkErr, typeName, src);
    out := builder.String();
  }

  /** `PythonTracebackFormatter`: the traceback without source lines. */
  method PythonTracebackFormatter(b: string, u: Unpacker, typeName: Error -> string) returns (out: string)
    requires u.Valid()
    modifies u
    ensures u.Valid() && u.err == old(u.err)
    ensures u.err.None? ==> out == b
    ensures u.err.Some? ==> out == b + PythonText(Unpacked(u.err, u.unpackAll, u.resolve), typeName, None)
  {
    out := FormatPythonTraceback(b, u, false, typeName, None);
  }

  /** `FormatPythonTracebackSourced`: the traceback with each frame's source line when they could be read. */
  method FormatPythonTracebackSourced(b: string, u: Unpacker, typeName: Error -> string,
                                      fetched: Option<seq<seq<seq<SourceLine>>>>)
    returns (out: string)
    requires u.Valid()
    requires fetched.Some? ==> SourcesFit(fetched.value, Unpacked(u.err, u.unpackAll, u.resolve), 1)
    modifies u
    ensures u.Valid() && u.err == old(u.err) && u.unpackAll == old(u.unpackAll)
    ensures u.err.None? ==> out == b
    ensures u.err.Some? ==> out == b + PythonText(Unpacked(u.err, u.unpackAll, u.resolve), typeName, fetched)
  {
    out := FormatPythonTraceback(b, u, true, typeName, fetched);
  }

  // ---- what the layout promises --------------------------------------------

  /** The blocks in the order they are printed: innermost element first. */
  function InnermostFirst(upk: seq<Element>, typeName: Error -> string, src: Option<seq<seq<seq<SourceLine>>>>): (r: seq<string>)
    requires src.Some? ==> SourcesFit(src.value, upk, 1)
    ensures |r| == |upk|
  {
    seq(|upk|, k requires 0 <= k < |upk| => Block(upk, typeName, src, |upk| - 1 - k))
  }

  /**
   * The traceback is the blocks from innermost to outermost with the
   * "direct cause" paragraph between neighbours and never after the last.
   */
  lemma PythonTextIsJoin(upk: seq<Element>, typeName: Error -> string, src: Option<seq<seq<seq<SourceLine>>>>)
    requires src.Some? ==> SourcesFit(src.value, upk, 1)
    ensures PythonText(upk, typeName, src) == Join(InnermostFirst(upk, typeName, src), BruhFormat.DirectCause)
  {
    var parts, pieces := InnermostFirst(upk, typeName, src), Pieces(upk, typeName, src);
    forall i | 0 <= i < |parts|
      ensures pieces[i] == parts[i] + (if i + 1 < |parts| then BruhFormat.DirectCause else "")
    {
      var j := |upk| - 1 - i;
      assert pieces[i] == Piece(upk, typeName, src, j);
      assert parts[i] == Block(upk, typeName, src, j);
      assert (j > 0) == (i + 1 < |parts|);
    }
    ConcatIsJoin(parts, BruhFormat.DirectCause, pieces);
  }

  /** A frame line without source, as the older formatter's frame line with its newline moved to the front. */
  function PlainFrames(ps: seq<Frame>): string
  {
    Concat(PlainLineSeq(ps))
  }

  /** The frame lines without source, last frame first. */
  function PlainLineSeq(ps: seq<Frame>): (r: seq<string>)
    ensures |r| == |ps|
  {
    seq(|ps|, k requires 0 <= k < |ps| => FrameLine(ps[|ps| - 1 - k], None))
  }

  lemma {:induction false} PyFramesFirst(ps: seq<Frame>)
    requires |ps| > 0
    ensures BruhFormat.PyFrames(ps) == BruhFormat.PyFrames(ps[1..]) + BruhFormat.PyFrame(ps[0])
    decreases |ps|
  {
    if |ps| > 1 {
      var n := |ps|;
      PyFramesFirst(ps[..n - 1]);
      assert ps[..n - 1][1..] == ps[1..][..n - 2];
      assert ps[1..][n - 2] == ps[n - 1];
      assert ps[..n - 1][0] == ps[0];
      AppendAssoc(BruhFormat.PyFrame(ps[n - 1]), BruhFormat.PyFrames(ps[1..][..n - 2]), BruhFormat.PyFrame(ps[0]));
    }
  }

  /** The older formatter's frame line is the same location followed by a newline. */
  lemma PyFrameIsFileLine(f: Frame)
    ensures BruhFormat.PyFrame(f) == FileLine(f) + "\n"
  {
  }

  /** The first frame is written last. */
  lemma PlainFramesFirst(ps: seq<Frame>)
    requires |ps| > 0
    ensures PlainFrames(ps) == PlainFrames(ps[1..]) + "\n" + FileLine(ps[0])
  {
    var n := |ps|;
    var lines := PlainLineSeq(ps);
    assert lines[..n - 1] == PlainLineSeq(ps[1..]);
    assert lines[n - 1] == FrameLine(ps[0], None) == "\n" + FileLine(ps[0]) + "";
    AppendAssoc(PlainFrames(ps[1..]), "\n", FileLine(ps[0]));
  }

  lemma {:induction false} PlainFramesAgree(ps: seq<Frame>)
    ensures PlainFrames(ps) + "\n" == "\n" + BruhFormat.PyFrames(ps)
    decreases |ps|
  {
    if |ps| > 0 {
      var g, rest := FileLine(ps[0]), BruhFormat.PyFrames(ps[1..]);
      PlainFramesFirst(ps);
      PlainFramesAgree(ps[1..]);
      PyFramesFirst(ps);
      PyFrameIsFileLine(ps[0]);
      AppendAssoc(PlainFrames(ps[1..]) + "\n", g, "\n");
      AppendAssoc("\n" + rest, g, "\n");
      AppendAssoc("\n", rest, g + "\n");
    }
  }

  /**
   * Without source lines, the heading of an element is what the older
   * `FormatPythonTraceback` prints for the same frames: both generations agree.
   */
  lemma HeadingMatchesOlderFormatter(upk: seq<Element>, i: nat)
    requires i < |upk| && |upk[i].partialStack| > 0
    ensures Heading(upk, None, i) == BruhFormat.TracebackHeading + BruhFormat.PyFrames(upk[i].partialStack)
  {
    var ps := upk[i].partialStack;
    var plain, py := PlainFrames(ps), BruhFormat.PyFrames(ps);
    assert Heading(upk, None, i) == TracebackTitle + FrameLines(upk, None, i) + "\n";
    PlainLines(upk, i);
    PlainFramesAgree(ps);
    AppendAssoc(TracebackTitle, plain, "\n");
    assert BruhFormat.TracebackHeading == TracebackTitle + "\n";
    AppendAssoc(TracebackTitle, "\n", py);
  }

  /** Without source, the frames of an element are its plain frame lines. */
  lemma PlainLines(upk: seq<Element>, i: nat)
    requires i < |upk|
    ensures FrameLines(upk, None, i) == PlainFrames(upk[i].partialStack)
  {
    var ps := upk[i].partialStack;
    var lines, plain := Lines(upk, None, i), PlainLineSeq(ps);
    forall k | 0 <= k < |ps|
      ensures lines[k] == plain[k]
    {
      assert LineOf(upk, None, i, |ps| - 1 - k) == None;
    }
    assert lines == plain;
  }
}
