// pkg/bruh/format_java_stacktrace.go: a layout like Java's stack traces,
// outermost error first, each cause after a `Caused by: ` line.
module JavaTrace {
  import opened Text
  import opened Chain
  import opened StringBuilder
  import opened Unpacker
  import BruhTrace

  /** `Caused by: ` for every element but the first, then `type: message`, `_` standing in for an empty message. */
  function Heading(upk: seq<Element>, i: nat, typeName: Error -> string): string
    requires i < |upk|
  {
    (if i > 0 then "Caused by: " else "") + typeName(upk[i].err) + ": " + (if upk[i].msg != "" then upk[i].msg else "_")
  }

  /** Each element as written, its frames (one `\n    at name (file:line)` each) after the heading. */
  function Parts(upk: seq<Element>, typeName: Error -> string): (r: seq<string>)
    ensures |r| == |upk|
  {
    seq(|upk|, i requires 0 <= i < |upk| => Heading(upk, i, typeName) + BruhTrace.PlainFrames(upk[i].partialStack))
  }

  /** The elements separated by one newline, none after the last. */
  function JavaText(upk: seq<Element>, typeName: Error -> string): string
  {
    Join(Parts(upk, typeName), "\n")
  }

  /** One frame: a newline, `    at `, then `name (file:line)`. */
  method WriteFrame(builder: StringBuilder, f: Frame)
    requires builder.Valid()
    modifies builder
    ensures builder.Valid()
    ensures builder.buf == old(builder.buf) + BruhTrace.PlainAtLine(f)
  {
    ghost var s := builder.buf;
    builder.WriteByte('\n');
    var _ := builder.WriteString("    at ");
    AppendAssoc(s, "\n", "    at ");
    ghost var s1 := builder.buf;
    var _ := builder.WriteString(f.name);
    var _ := builder.WriteString(" (");
    var _ := builder.WriteString(f.file);
    builder.WriteByte(':');
    builder.WriteInt(f.line);
    builder.WriteByte(')');
    Regroup6(s1, f.name, " (", f.file, ":", Decimal(f.line), ")");
    Regroup6("\n    at ", f.name, " (", f.file, ":", Decimal(f.line), ")");
    AppendAssoc(s, "\n    at ", f.name + " (" + f.file + ":" + Decimal(f.line) + ")");
  }

  /** The frame loop, one `\n    at name (file:line)` per frame. */
  method WriteFrames(builder: StringBuilder, st: seq<Frame>)
    requires builder.Valid()
    modifies builder
    ensures builder.Valid()
    ensures builder.buf == old(builder.buf) + BruhTrace.PlainFrames(st)
  {
    ghost var lines := seq(|st|, j requires 0 <= j < |st| => BruhTrace.PlainAtLine(st[j]));
    for j := 0 to |st|
      invariant builder.Valid()
      invariant builder.buf == old(builder.buf) + Concat(lines[..j])
    {
      WriteFrame(builder, st[j]);
      ConcatSnoc(lines, j);
      AppendAssoc(old(builder.buf), Concat(lines[..j]), lines[j]);
    }
    assert lines[..|st|] == lines;
  }

  /** The heading of one element. */
  method WriteHeading(builder: StringBuilder, upk: seq<Element>, i: nat, typeName: Error -> string)
    requires i < |upk| && builder.Valid()
    modifies builder
    ensures builder.Valid()
    ensures builder.buf == old(builder.buf) + Heading(upk, i, typeName)
  {
    var e := upk[i];
    ghost var s := builder.buf;
    if i > 0 {
      var _ := builder.WriteString("Caused by: ");
    }
    var _ := builder.WriteString(typeName(e.err));
    var _ := builder.WriteString(": ");
    if e.msg != "" {
      var _ := builder.WriteString(e.msg);
    } else {
      var _ := builder.WriteString("_");
    }
    Regroup4(s, if i > 0 then "Caused by: " else "", typeName(e.err), ": ", if e.msg != "" then e.msg else "_");
  }

  /** One element of the loop, with the newline after it unless it is the last. */
  method WriteElement(builder: StringBuilder, upk: seq<Element>, i: nat, typeName: Error -> string)
    requires i < |upk| && builder.Valid()
    modifies builder
    ensures builder.Valid()
    ensures builder.buf == old(builder.buf) + Pieces(upk, typeName)[i]
  {
    ghost var s := builder.buf;
    WriteHeading(builder, upk, i, typeName);
    WriteFrames(builder, upk[i].partialStack);
    AppendAssoc(s, Heading(upk, i, typeName), BruhTrace.PlainFrames(upk[i].partialStack));
    if i < |upk| - 1 {
      builder.WriteByte('\n');
    }
    AppendAssoc(s, Parts(upk, typeName)[i], if i + 1 < |upk| then "\n" else "");
  }

  /** `JavaStackTraceFormatter`: the incoming bytes, followed by the elements unless the error is nil. */
  method JavaStackTraceFormatter(b: string, u: Unpacker, typeName: Error -> string) returns (out: string)
    requires u.Valid()
    modifies u
    ensures u.Valid() && u.err == old(u.err) && u.unpackAll == old(u.unpackAll)
    ensures u.err.None? ==> out == b
    ensures u.err.Some? ==> out == b + JavaText(Unpacked(u.err, u.unpackAll, u.resolve), typeName)
  {
    if u.err.None? {
      return b;
    }
    var upk := u.Unpack();
    var builder := new StringBuilder(b, |b|);
    WriteElements(builder, upk, typeName);
    out := builder.String();
  }

  /** The elements as the loop writes them: each followed by a newline but the last. */
  function Pieces(upk: seq<Element>, typeName: Error -> string): (r: seq<string>)
    ensures |r| == |upk|
  {
    seq(|upk|, i requires 0 <= i < |upk| => Parts(upk, typeName)[i] + (if i + 1 < |upk| then "\n" else ""))
  }

  /** The pieces laid end to end read as the newline-joined elements. */
  lemma PiecesAreJoin(upk: seq<Element>, typeName: Error -> string)
    ensures Concat(Pieces(upk, typeName)) == JavaText(upk, typeName)
  {
    ConcatIsJoin(Parts(upk, typeName), "\n", Pieces(upk, typeName));
  }

  method WriteElements(builder: StringBuilder, upk: seq<Element>, typeName: Error -> string)
    requires builder.Valid()
    modifies builder
    ensures builder.Valid()
    ensures builder.buf == old(builder.buf) + JavaText(upk, typeName)
  {
    ghost var pieces := Pieces(upk, typeName);
    for i := 0 to |upk|
      invariant builder.Valid()
      invariant builder.buf == old(builder.buf) + Concat(pieces[..i])
    {
      WriteElement(builder, upk, i, typeName);
      ConcatSnoc(pieces, i);
      AppendAssoc(old(builder.buf), Concat(pieces[..i]), pieces[i]);
    }
    assert pieces[..|upk|] == pieces;
    PiecesAreJoin(upk, typeName);
  }

  /**
   * Where every message is non-empty, each element reads as in the plain
   * typed bruh layout, causes behind `Caused by: `.
   */
  lemma CausesOfTypedBruhLayout(upk: seq<Element>, typeName: Error -> string, i: nat)
    requires i < |upk| && upk[i].msg != ""
    ensures Parts(upk, typeName)[i]
         == (if i > 0 then "Caused by: " else "") + BruhTrace.PlainHeading(upk[i], true, typeName) + BruhTrace.PlainFrames(upk[i].partialStack)
  {
    var c := if i > 0 then "Caused by: " else "";
    AppendAssoc(c, typeName(upk[i].err) + ": ", upk[i].msg);
  }
}
