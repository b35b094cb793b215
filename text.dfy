// String helpers shared by the model: the pieces of Go's `strings` and
// `strconv` packages the library relies on. A Go string is a sequence of
// bytes; here each byte is one `char` of a Dafny `string`.
module Text {

  predicate HasPrefix(s: string, p: string)
  {
    |p| <= |s| && s[..|p|] == p
  }

  predicate HasSuffix(s: string, p: string)
  {
    |p| <= |s| && s[|s| - |p|..] == p
  }

  /** `strings.TrimSuffix`: `s` without `p` at its end, or `s` unchanged. */
  function TrimSuffix(s: string, p: string): (r: string)
    ensures HasSuffix(s, p) ==> r + p == s
    ensures !HasSuffix(s, p) ==> r == s
  {
    if HasSuffix(s, p) then s[..|s| - |p|] else s
  }

  /** `strings.TrimPrefix`: `s` without `p` at its start, or `s` unchanged. */
  function TrimPrefix(s: string, p: string): (r: string)
    ensures HasPrefix(s, p) ==> p + r == s
    ensures !HasPrefix(s, p) ==> r == s
  {
    if HasPrefix(s, p) then s[|p|..] else s
  }

  /** `strings.Contains`. */
  predicate Contains(s: string, p: string)
  {
    HasPrefix(s, p) || (|s| > 0 && Contains(s[1..], p))
  }

  /** `strings.LastIndex(s, string(c))`: -1 when `c` does not occur. */
  function LastIndexOf(s: string, c: char): (r: int)
    ensures -1 <= r < |s|
    ensures r >= 0 ==> s[r] == c
    ensures forall k :: r < k < |s| ==> s[k] != c
  {
    if |s| == 0 then -1
    else if s[|s| - 1] == c then |s| - 1
    else LastIndexOf(s[..|s| - 1], c)
  }

  /** The part of `s` after the last `c` (all of `s` when there is none). */
  function AfterLast(s: string, c: char): (r: string)
    ensures HasSuffix(s, r)
    ensures c !in r
    ensures c !in s ==> r == s
  {
    if |s| == 0 then []
    else if s[|s| - 1] == c then []
    else AfterLast(s[..|s| - 1], c) + [s[|s| - 1]]
  }

  /** ASCII lower-casing, as `strings.ToLower` does on ASCII input. */
  function Lower(c: char): char
  {
    if 'A' <= c <= 'Z' then (c as int + 32) as char else c
  }

  function ToLower(s: string): (r: string)
    ensures |r| == |s|
    ensures forall i :: 0 <= i < |s| ==> r[i] == Lower(s[i])
  {
    seq(|s|, i requires 0 <= i < |s| => Lower(s[i]))
  }

  /** `strings.ReplaceAll(s, "\t", "    ")`. */
  function ExpandTabs(s: string): (r: string)
    ensures '\t' !in r
    ensures '\t' !in s ==> r == s
  {
    if |s| == 0 then []
    else (if s[0] == '\t' then "    " else [s[0]]) + ExpandTabs(s[1..])
  }

  /** Regrouping a concatenation, stated once for the writers that append piece by piece. */
  lemma AppendAssoc<T>(a: seq<T>, b: seq<T>, c: seq<T>)
    ensures (a + b) + c == a + (b + c)
  {
  }

  /** Appending three, four, five or six pieces one after another to `s` appends their concatenation. */
  lemma Regroup3<T>(s: seq<T>, a: seq<T>, b: seq<T>, c: seq<T>)
    ensures s + a + b + c == s + (a + b + c)
  {
    AppendAssoc(s, a, b);
    AppendAssoc(s, a + b, c);
  }

  lemma Regroup4<T>(s: seq<T>, a: seq<T>, b: seq<T>, c: seq<T>, d: seq<T>)
    ensures s + a + b + c + d == s + (a + b + c + d)
  {
    Regroup3(s, a, b, c);
    AppendAssoc(s, a + b + c, d);
  }

  lemma Regroup5<T>(s: seq<T>, a: seq<T>, b: seq<T>, c: seq<T>, d: seq<T>, e: seq<T>)
    ensures s + a + b + c + d + e == s + (a + b + c + d + e)
  {
    Regroup4(s, a, b, c, d);
    AppendAssoc(s, a + b + c + d, e);
  }

  lemma Regroup6<T>(s: seq<T>, a: seq<T>, b: seq<T>, c: seq<T>, d: seq<T>, e: seq<T>, f: seq<T>)
    ensures s + a + b + c + d + e + f == s + (a + b + c + d + e + f)
  {
    Regroup5(s, a, b, c, d, e);
    AppendAssoc(s, a + b + c + d + e, f);
  }

  /** `strings.Join`: the parts with `sep` between neighbours. */
  function Join(parts: seq<string>, sep: string): (r: string)
  {
    if |parts| == 0 then ""
    else if |parts| == 1 then parts[0]
    else parts[0] + sep + Join(parts[1..], sep)
  }

  /** Joining parts that are all non-empty gives the empty text only for no parts. */
  lemma {:induction false} JoinOfNonEmpty(parts: seq<string>, sep: string)
    requires forall i :: 0 <= i < |parts| ==> parts[i] != ""
    ensures Join(parts, sep) == "" <==> |parts| == 0
  {
    if |parts| > 1 {
      assert |Join(parts, sep)| >= |parts[0]|;
    }
  }

  /** Appending one more part to a joined list only adds `sep + last`. */
  lemma {:induction false} JoinSnoc(parts: seq<string>, last: string, sep: string)
    requires |parts| > 0
    ensures Join(parts + [last], sep) == Join(parts, sep) + sep + last
  {
    if |parts| == 1 {
      assert parts + [last] == [parts[0], last];
      assert ([parts[0], last])[1..] == [last];
    } else {
      assert (parts + [last])[1..] == parts[1..] + [last];
      JoinSnoc(parts[1..], last, sep);
    }
  }

  /**
   * The first `k` parts, each followed by `sep` unless it is the last of
   * all: what a loop writes that puts a separator after every part but the
   * final one.
   */
  function Terminated(parts: seq<string>, sep: string, k: nat): (r: string)
    requires k <= |parts|
  {
    if k == 0 then ""
    else Terminated(parts, sep, k - 1) + parts[k - 1] + (if k < |parts| then sep else "")
  }

  /** One more part: the part and, unless it is the last of all, the separator after it. */
  lemma TerminatedStep(parts: seq<string>, sep: string, k: nat)
    requires 1 <= k <= |parts|
    ensures Terminated(parts, sep, k)
      == Terminated(parts, sep, k - 1) + (parts[k - 1] + (if k < |parts| then sep else ""))
  {
    AppendAssoc(Terminated(parts, sep, k - 1), parts[k - 1], if k < |parts| then sep else "");
  }

  /** After the last part, the written text is the parts joined by `sep`. */
  lemma TerminatedIsJoin(parts: seq<string>, sep: string)
    ensures Terminated(parts, sep, |parts|) == Join(parts, sep)
  {
    if |parts| > 0 {
      TerminatedPrefix(parts, sep, |parts|);
      assert parts[..|parts|] == parts;
    }
  }

  lemma {:induction false} TerminatedPrefix(parts: seq<string>, sep: string, k: nat)
    requires 1 <= k <= |parts|
    ensures Terminated(parts, sep, k) == Join(parts[..k], sep) + (if k < |parts| then sep else "")
    decreases k
  {
    if k == 1 {
      assert parts[..1] == [parts[0]];
    } else {
      TerminatedPrefix(parts, sep, k - 1);
      assert parts[..k] == parts[..k - 1] + [parts[k - 1]];
      JoinSnoc(parts[..k - 1], parts[k - 1], sep);
    }
  }

  /** The parts written one after another, first to last. */
  function Concat(parts: seq<string>): string
  {
    if |parts| == 0 then "" else Concat(parts[..|parts| - 1]) + parts[|parts| - 1]
  }

  lemma ConcatSnoc(parts: seq<string>, k: nat)
    requires k < |parts|
    ensures Concat(parts[..k + 1]) == Concat(parts[..k]) + parts[k]
  {
    assert parts[..k + 1][..k] == parts[..k];
  }

  /**
   * Writing pieces that are the parts each followed by `sep`, except the
   * final one, writes the parts terminated as `Terminated` says.
   */
  lemma {:induction false} ConcatOfTerminated(parts: seq<string>, sep: string, pieces: seq<string>, k: nat)
    requires |pieces| == |parts| && k <= |parts|
    requires forall i :: 0 <= i < |parts| ==> pieces[i] == parts[i] + (if i + 1 < |parts| then sep else "")
    ensures Concat(pieces[..k]) == Terminated(parts, sep, k)
    decreases k
  {
    if k > 0 {
      ConcatOfTerminated(parts, sep, pieces, k - 1);
      ConcatSnoc(pieces, k - 1);
      TerminatedStep(parts, sep, k);
    }
  }

  /** The same, for all the pieces: their concatenation is the parts joined by `sep`. */
  lemma ConcatIsJoin(parts: seq<string>, sep: string, pieces: seq<string>)
    requires |pieces| == |parts|
    requires forall i :: 0 <= i < |parts| ==> pieces[i] == parts[i] + (if i + 1 < |parts| then sep else "")
    ensures Concat(pieces) == Join(parts, sep)
  {
    ConcatOfTerminated(parts, sep, pieces, |parts|);
    assert pieces[..|parts|] == pieces;
    TerminatedIsJoin(parts, sep);
  }

  // ---- numbers ----------------------------------------------------------

  const MinInt64: int := -0x8000_0000_0000_0000
  const MaxInt64: int := 0x7fff_ffff_ffff_ffff

  /** Go's `int` and `int64`: 64 bits wide on the platforms the library targets. */
  type Int64 = x: int | MinInt64 <= x <= MaxInt64

  function DigitChar(d: nat): char
    requires d < 16
  {
    if d < 10 then ('0' as int + d) as char else ('a' as int + d - 10) as char
  }

  predicate IsDigit(c: char)
  {
    '0' <= c <= '9'
  }

  /** The decimal digits of a non-negative number, most significant first. */
  function DecDigits(n: nat): (r: string)
    ensures |r| >= 1
  {
    if n < 10 then [DigitChar(n)] else DecDigits(n / 10) + [DigitChar(n % 10)]
  }

  /** The hexadecimal digits of a non-negative number, most significant first. */
  function HexDigits(n: nat): (r: string)
    ensures |r| >= 1
  {
    if n < 16 then [DigitChar(n)] else HexDigits(n / 16) + [DigitChar(n % 16)]
  }

  /** `strconv.FormatInt(n, 10)` (also what `strconv.Itoa` gives). */
  function Decimal(n: int): (r: string)
    ensures |r| >= 1
  {
    if n < 0 then "-" + DecDigits(-n) else DecDigits(n)
  }

  /** `strconv.FormatInt(n, 16)`: lower-case hexadecimal digits. */
  function Hex(n: int): (r: string)
    ensures |r| >= 1
  {
    if n < 0 then "-" + HexDigits(-n) else HexDigits(n)
  }

  /** The number of decimal digits of `n`, used as a length by the tables below. */
  function DecimalLen(n: nat): (r: nat)
  {
    if n < 10 then 1 else 1 + DecimalLen(n / 10)
  }

  lemma {:induction false} DigitsOnly(n: nat)
    ensures forall i :: 0 <= i < |DecDigits(n)| ==> IsDigit(DecDigits(n)[i])
    decreases n
  {
    if n >= 10 {
      DigitsOnly(n / 10);
    }
  }

  lemma {:induction false} DecimalLength(n: nat)
    ensures |Decimal(n)| == DecimalLen(n)
    decreases n
  {
    if n >= 10 {
      DecimalLength(n / 10);
    }
  }

  function Pow10(k: nat): (r: nat)
    ensures r >= 1
  {
    if k == 0 then 1 else 10 * Pow10(k - 1)
  }

  /** A number with `k` decimal digits lies in [10^(k-1), 10^k). */
  lemma {:induction false} DecimalLenRange(n: nat, k: nat)
    requires 1 <= k
    requires (k == 1 || Pow10(k - 1) <= n) && n < Pow10(k)
    ensures DecimalLen(n) == k
    decreases k
  {
    if k > 1 {
      assert Pow10(k - 1) == 10 * Pow10(k - 2);
      DecimalLenRange(n / 10, k - 1);
    }
  }

  /** Repetitions of one character. */
  function Repeat(c: char, n: int): (r: string)
    ensures |r| == if n < 0 then 0 else n
    ensures forall i :: 0 <= i < |r| ==> r[i] == c
    decreases n
  {
    if n <= 0 then [] else [c] + Repeat(c, n - 1)
  }

  /** The elements of `s` in the opposite order. */
  function Reverse<T>(s: seq<T>): (r: seq<T>)
    ensures |r| == |s|
    ensures forall i :: 0 <= i < |s| ==> r[i] == s[|s| - 1 - i]
  {
    if |s| == 0 then [] else [s[|s| - 1]] + Reverse(s[..|s| - 1])
  }

  /** Reversing twice gives the sequence back. */
  lemma ReverseInvolutive<T>(s: seq<T>)
    ensures Reverse(Reverse(s)) == s
  {
    assert forall i :: 0 <= i < |s| ==> Reverse(Reverse(s))[i] == s[i];
  }
}
