// pkg/multierror/multi_error.go: an error holding a list of errors. `Add`
// appends to the list in place; `Error()` numbers the entries with indices
// zero-padded to a common width.
module MultiError {
  import opened Text
  import opened Chain
  import opened Util
  import opened StringBuilder
  import BruhError

  const ErrType: string := "*multierror.Err"

  /** What `Message()` of the embedded node returns. */
  function MessageOf(node: Error): string
  {
    if node.message.Some? then node.message.value else ""
  }

  /** An entry's index, zero-padded to the width of the number of entries. */
  function PaddedIndex(i: nat, n: nat): string
  {
    Repeat('0', DigitsInNumber(n) - DigitsInNumber(i)) + Decimal(i)
  }

  /** One rendered entry: "Error ", the padded index, ": " and the error's text. */
  function Entry(i: nat, n: nat, text: string): string
  {
    "Error " + PaddedIndex(i, n) + ": " + text
  }

  function Entries(texts: seq<string>): (r: seq<string>)
    ensures |r| == |texts|
  {
    seq(|texts|, i requires 0 <= i < |texts| => Entry(i, |texts|, texts[i]))
  }

  /** `Error()`: nothing for an empty list; otherwise the message on its own line, when there is one, then the entries, one per line. */
  function Rendered(message: string, texts: seq<string>): string
  {
    if |texts| == 0 then ""
    else (if message != "" then message + "\n" else "") + Join(Entries(texts), "\n")
  }

  /** The texts of the held errors; `Error()` calls `Error()` on each, so none may be nil. */
  function Texts(errs: seq<Option<Error>>): (r: seq<string>)
    requires forall i :: 0 <= i < |errs| ==> errs[i].Some?
    ensures |r| == |errs|
    ensures forall i :: 0 <= i < |r| ==> r[i] == errs[i].value.text
  {
    seq(|errs|, i requires 0 <= i < |errs| && errs[i].Some? => errs[i].value.text)
  }

  /** `Err`: the embedded `bruh.Err` node and the list of errors. */
  class Err {
    const node: Error
    var errors: seq<Option<Error>>

    constructor (node: Error, errs: seq<Option<Error>>)
      ensures this.node == node && errors == errs
    {
      this.node := node;
      errors := errs;
    }

    /** `Add(errs...)`: the errors appended in order after the ones already held. */
    method Add(errs: seq<Option<Error>>)
      modifies this
      ensures errors == old(errors) + errs
    {
      errors := errors + errs;
    }

    /**
     * The node as a chain sees it: `Unwrap` always returns nil, so the held
     * errors are not part of its chain.
     */
    function AsError(text: string): (e: Error)
      reads this
      ensures e.text == text && e.link == Unwraps(None)
      ensures Depth(Some(e)) == 1 && Nodes(Some(e)) == [e]
    {
      node.(goType := ErrType, text := text, link := Unwraps(None))
    }

    /** `Error()`, written through a string builder. */
    method Error() returns (s: string)
      requires forall i :: 0 <= i < |errors| ==> errors[i].Some?
      requires |errors| <= MaxInt64
      ensures s == Rendered(MessageOf(node), Texts(errors))
      ensures IsNil(this) <==> s == ""
    {
      RenderedEmptyIffNoErrors(MessageOf(node), Texts(errors));
      if IsNil(this) {
        return "";
      }
      var message := MessageOf(node);
      var builder := new StringBuilder("", 0);
      builder.Grow(|message| + |errors| * 180);
      if message != "" {
        var _ := builder.WriteString(message);
        builder.WriteByte('\n');
      }
      ghost var head := builder.buf;
      assert head == if message != "" then message + "\n" else "";
      WriteEntries(builder, Texts(errors));
      s := builder.String();
    }
  }

  /** `IsNil`: a nil receiver or an empty list. */
  predicate IsNil(me: Err?): (r: bool)
    reads me
    ensures me == null ==> r
    ensures me != null ==> (r <==> me.errors == [])
  {
    me == null || |me.errors| == 0
  }

  /** `ErrorOrNil`: nil exactly when `IsNil` holds, the receiver itself otherwise. */
  method ErrorOrNil(me: Err?) returns (r: Err?)
    ensures IsNil(me) <==> r == null
    ensures r != null ==> r == me
  {
    if IsNil(me) {
      return null;
    }
    return me;
  }

  /** `New(msg, errs...)`: a `bruh.Err` node for `msg` holding `errs`. */
  method New(msg: string, errs: seq<Option<Error>>, text: string, stack: seq<PC>) returns (me: Err)
    ensures fresh(me)
    ensures me.node == BruhError.NewSkip(1, msg, text, stack) && me.errors == errs
  {
    me := new Err(BruhError.NewSkip(1, msg, text, stack), errs);
  }

  /** `Wrap(err, msg)`: `New` holding exactly the wrapped error. */
  method Wrap(err: Option<Error>, msg: string, text: string, stack: seq<PC>) returns (me: Err)
    ensures fresh(me)
    ensures me.node == BruhError.NewSkip(1, msg, text, stack) && me.errors == [err]
  {
    me := New(msg, [err], text, stack);
  }

  /** The padding loop: `k` zero bytes. */
  method WriteZeros(builder: StringBuilder, k: int)
    requires builder.Valid()
    modifies builder
    ensures builder.Valid()
    ensures builder.buf == old(builder.buf) + Repeat('0', k)
  {
    var j := 0;
    while j < k
      invariant builder.Valid()
      invariant 0 <= j <= (if k < 0 then 0 else k)
      invariant builder.buf == old(builder.buf) + Repeat('0', j)
      decreases k - j
    {
      RepeatSnoc(j);
      AppendAssoc(old(builder.buf), Repeat('0', j), ['0']);
      builder.WriteByte('0');
      j := j + 1;
    }
  }

  lemma RepeatSnoc(j: nat)
    ensures Repeat('0', j + 1) == Repeat('0', j) + ['0']
  {
    assert Repeat('0', j + 1) == ['0'] + Repeat('0', j);
  }

  /** One entry. */
  method WriteEntry(builder: StringBuilder, i: nat, n: nat, text: string)
    requires builder.Valid() && i <= MaxInt64
    modifies builder
    ensures builder.Valid()
    ensures builder.buf == old(builder.buf) + Entry(i, n, text)
  {
    ghost var s := builder.buf;
    var _ := builder.WriteString("Error ");
    WriteZeros(builder, DigitsInNumber(n) - DigitsInNumber(i));
    builder.WriteInt(i);
    var _ := builder.WriteString(": ");
    var _ := builder.WriteString(text);
    Regroup5(s, "Error ", Repeat('0', DigitsInNumber(n) - DigitsInNumber(i)), Decimal(i), ": ", text);
    assert "Error " + Repeat('0', DigitsInNumber(n) - DigitsInNumber(i)) + Decimal(i) + ": " + text == Entry(i, n, text);
  }

  /** What the entry loop writes for entry `i`: the entry and, unless it is the last, a newline. */
  function Pieces(texts: seq<string>): (r: seq<string>)
    ensures |r| == |texts|
  {
    seq(|texts|, i requires 0 <= i < |texts| =>
      Entry(i, |texts|, texts[i]) + (if i + 1 < |texts| then "\n" else ""))
  }

  lemma PiecesAreJoin(texts: seq<string>)
    ensures Concat(Pieces(texts)) == Join(Entries(texts), "\n")
  {
    ConcatIsJoin(Entries(texts), "\n", Pieces(texts));
  }

  /** The entry loop of `Error()`. */
  method WriteEntries(builder: StringBuilder, texts: seq<string>)
    requires builder.Valid() && |texts| <= MaxInt64
    modifies builder
    ensures builder.Valid()
    ensures builder.buf == old(builder.buf) + Join(Entries(texts), "\n")
  {
    ghost var pieces := Pieces(texts);
    for i := 0 to |texts|
      invariant builder.Valid()
      invariant builder.buf == old(builder.buf) + Concat(pieces[..i])
    {
      ghost var s := builder.buf;
      WriteEntry(builder, i, |texts|, texts[i]);
      if i < |texts| - 1 {
        builder.WriteByte('\n');
      }
      AppendAssoc(s, Entry(i, |texts|, texts[i]), if i + 1 < |texts| then "\n" else "");
      ConcatSnoc(pieces, i);
      AppendAssoc(old(builder.buf), Concat(pieces[..i]), pieces[i]);
    }
    assert pieces[..|texts|] == pieces;
    PiecesAreJoin(texts);
  }

  /** The rendering is empty exactly when there are no entries. */
  lemma RenderedEmptyIffNoErrors(message: string, texts: seq<string>)
    ensures Rendered(message, texts) == "" <==> |texts| == 0
  {
    if |texts| > 0 {
      var es := Entries(texts);
      JoinFirst(es, "\n");
      assert es[0][..6] == "Error ";
    }
  }

  /** A join starts with its first part. */
  lemma JoinFirst(parts: seq<string>, sep: string)
    requires |parts| > 0
    ensures HasPrefix(Join(parts, sep), parts[0])
  {
    if |parts| > 1 {
      assert Join(parts, sep) == parts[0] + (sep + Join(parts[1..], sep));
    }
  }

  /** The message and a newline come first exactly when the message is non-empty, then the first entry. */
  lemma RenderedStartsWithMessage(message: string, texts: seq<string>)
    requires |texts| > 0
    ensures message != "" ==> HasPrefix(Rendered(message, texts), message + "\n")
    ensures var rest := Rendered(message, texts)[if message != "" then |message| + 1 else 0..];
      HasPrefix(rest, "Error " + PaddedIndex(0, |texts|) + ": " + texts[0])
  {
    var head := if message != "" then message + "\n" else "";
    var body := Join(Entries(texts), "\n");
    JoinFirst(Entries(texts), "\n");
    assert Rendered(message, texts) == head + body;
    assert (head + body)[|head|..] == body;
  }

  /** Every entry's index takes exactly as many digits as the number of entries (below a billion entries). */
  lemma PaddedToCommonWidth(i: nat, n: nat)
    requires i < n < 1000000000
    ensures |PaddedIndex(i, n)| == DigitsInNumber(n)
    ensures forall j :: 0 <= j < DigitsInNumber(n) - DigitsInNumber(i) ==> PaddedIndex(i, n)[j] == '0'
  {
    DigitsInNumberMonotone(i, n);
    DigitsInNumberIsDecimalWidth(i);
  }
}
