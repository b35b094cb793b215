// internal/util: the digit count used to align line numbers and indices.
module Util {
  import opened Text

  /** Go's unary minus on a 64-bit integer: negating the minimum wraps to itself. */
  function Negate64(n: Int64): (r: Int64)
    ensures (r + n) % 0x1_0000_0000_0000_0000 == 0
    ensures r == n <==> n == 0 || n == MinInt64
    ensures n != MinInt64 ==> r == -n
  {
    if n == MinInt64 then n else -n
  }

  /** The `switch` of `DigitsInNumber`: the first power of ten above `m`, capped at ten digits. */
  function DigitBucket(m: int): (r: nat)
    ensures 1 <= r <= 10
  {
    if m < 10 then 1
    else if m < 100 then 2
    else if m < 1000 then 3
    else if m < 10000 then 4
    else if m < 100000 then 5
    else if m < 1000000 then 6
    else if m < 10000000 then 7
    else if m < 100000000 then 8
    else if m < 1000000000 then 9
    else 10
  }

  /** `DigitsInNumber` as written: the negation of a negative input wraps on 64 bits. */
  function DigitsInNumberAsWritten(n: Int64): (r: nat)
    ensures 1 <= r <= 10
    ensures n != MinInt64 ==> r == DigitsInNumber(n)
  {
    DigitBucket(if n < 0 then Negate64(n) else n)
  }

  /** The most negative input has 19 digits, yet is reported as a one-digit number. */
  lemma DigitsOfMinInt64AsWritten()
    ensures DigitsInNumberAsWritten(MinInt64) == 1
    ensures DigitsInNumber(MinInt64) == 10
  {
  }

  /** `DigitsInNumber` on the magnitude of `n`: its decimal width, saturating at ten. */
  function DigitsInNumber(n: int): (r: nat)
    ensures 1 <= r <= 10
  {
    DigitBucket(if n < 0 then -n else n)
  }

  /** The count equals the length of the decimal rendering for every magnitude below 10^9. */
  lemma {:induction false} DigitsInNumberIsDecimalWidth(n: int)
    requires -1000000000 < n < 1000000000
    ensures DigitsInNumber(n) == |Decimal(if n < 0 then -n else n)|
  {
    var m: nat := if n < 0 then -n else n;
    DecimalLength(m);
    var k := DigitBucket(m);
    assert Pow10(1) == 10 && Pow10(2) == 100 && Pow10(3) == 1000 && Pow10(4) == 10000;
    assert Pow10(5) == 100000 && Pow10(6) == 1000000 && Pow10(7) == 10000000;
    assert Pow10(8) == 100000000 && Pow10(9) == 1000000000;
    DecimalLenRange(m, k);
  }

  /** From 10^9 on the count no longer grows. */
  lemma DigitsInNumberSaturates(n: int)
    requires n >= 1000000000 || n <= -1000000000
    ensures DigitsInNumber(n) == 10
  {
  }

  /** A negative input counts like its magnitude. */
  lemma DigitsInNumberSymmetric(n: int)
    ensures DigitsInNumber(-n) == DigitsInNumber(n)
  {
  }

  /** A larger magnitude never has fewer digits. */
  lemma DigitsInNumberMonotone(a: int, b: int)
    requires (if a < 0 then -a else a) <= (if b < 0 then -b else b)
    ensures DigitsInNumber(a) <= DigitsInNumber(b)
  {
  }
}
