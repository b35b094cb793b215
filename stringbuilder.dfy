// internal/stringbuilder: an append-only byte buffer. The Go slice is a
// sequence plus the capacity of its backing array; when an append does not
// fit, the runtime picks a larger capacity, modelled as any that fits.
module StringBuilder {
  import opened Text
  import opened Util

  /** A capacity the runtime may choose for a slice of length `need` that had capacity `cap`. */
  predicate NewCapacity(grown: nat, need: nat, cap: nat)
  {
    grown >= need && (need <= cap ==> grown == cap)
  }

  class StringBuilder {
    var buf: string
    var capacity: nat

    ghost predicate Valid()
      reads this
    {
      |buf| <= capacity
    }

    /** `New(b)`: a builder over an existing slice of length `|b|` and capacity `cap`. */
    constructor (b: string, cap: nat)
      requires |b| <= cap
      ensures Valid()
      ensures buf == b && capacity == cap
    {
      buf := b;
      capacity := cap;
    }

    /** `Grow(n)`: room for `n` more bytes, reallocating to capacity + n when short. */
    method Grow(n: int)
      requires Valid()
      modifies this
      ensures Valid()
      ensures buf == old(buf)
      ensures capacity - |buf| >= n
      ensures old(capacity) - |buf| < n ==> capacity == old(capacity) + n
      ensures old(capacity) - |buf| >= n ==> capacity == old(capacity)
    {
      if capacity - |buf| < n {
        capacity := capacity + n;
      }
    }

    /** `Len()`: the number of bytes `String()` holds. */
    function Len(): (r: nat)
      reads this
      ensures r == |String()|
    {
      |buf|
    }

    /** `String()` and `Bytes()`: the accumulated bytes. */
    function String(): (r: string)
      reads this
      ensures r == buf
    {
      buf
    }

    /** The append every writer performs; the capacity only changes when `s` does not fit. */
    method Append(s: string)
      requires Valid()
      modifies this
      ensures Valid()
      ensures buf == old(buf) + s
      ensures |old(buf) + s| <= old(capacity) ==> capacity == old(capacity)
    {
      var need := |buf + s|;
      var fit: nat := if need <= capacity then capacity else need;
      assert NewCapacity(fit, need, capacity);
      var grown: nat :| NewCapacity(grown, need, capacity);
      assert NewCapacity(grown, need, capacity);
      buf := buf + s;
      capacity := grown;
    }

    /** `Write(p)`: appends `p` and reports `len(p)` and no error. */
    method Write(p: string) returns (n: nat, failed: bool)
      requires Valid()
      modifies this
      ensures Valid()
      ensures buf == old(buf) + p
      ensures n == |p| && !failed
    {
      Append(p);
      n := |p|;
      failed := false;
    }

    method WriteByte(c: char)
      requires Valid()
      modifies this
      ensures Valid()
      ensures buf == old(buf) + [c]
    {
      Append([c]);
    }

    method WriteString(s: string) returns (n: nat)
      requires Valid()
      modifies this
      ensures Valid()
      ensures buf == old(buf) + s
      ensures n == |s|
    {
      Append(s);
      n := |s|;
    }

    /** `WriteInt`: the base-10 rendering of a 64-bit integer. */
    method WriteInt(value: Int64)
      requires Valid()
      modifies this
      ensures Valid()
      ensures buf == old(buf) + Decimal(value)
    {
      Append(Decimal(value));
    }

    /** `WriteIntAsHex`: the base-16 rendering, lower-case, with a sign for negatives. */
    method WriteIntAsHex(value: Int64)
      requires Valid()
      modifies this
      ensures Valid()
      ensures buf == old(buf) + Hex(value)
    {
      Append(Hex(value));
    }
  }
}
