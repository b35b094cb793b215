// The pure parts of `getSourceLinesFromFile` in pkg/bruh/unpacker.go: the
// slots laid out for each requested line, the line-to-slot index, and the
// in-place unindenting and column capping applied once the slots are filled.
module SourceLines {
  import opened Text

  /** One line of a source snippet; a line number of 0 marks a slot outside the file. */
  datatype SourceLine = SourceLine(lineNum: Int64, source: string)

  /**
   * Source lines for `n` frames with at least `width` slots each: the shape
   * `GetSourceLines(ctxLines, …)` returns each frame's lines in, `width`
   * being `2*ctxLines+1`.
   */
  predicate SlotsFit(src: seq<seq<SourceLine>>, n: nat, width: nat)
  {
    |src| == n && forall j :: 0 <= j < n ==> |src[j]| >= width
  }

  /** Which slot (`index1`, `index2`) receives file line `lineNum`. */
  datatype LineToIndex = LineToIndex(lineNum: int, index1: nat, index2: nat, isLine: bool)

  /** `max(0, x)`, applied to `ctxLines` and `colCap`: the least natural number not below `x`. */
  function Clamp(x: int): (r: nat)
    ensures r >= x && (r == 0 || r == x)
  {
    if x < 0 then 0 else x
  }

  /** The number of slots per requested line. */
  function Width(ctxLines: nat): nat
  {
    2 * ctxLines + 1
  }

  /** The slots of requested line `l` (the `i`-th): `l - ctxLines` up to `l + ctxLines`. */
  function Group(l: int, i: nat, ctxLines: nat): (g: seq<LineToIndex>)
    ensures |g| == Width(ctxLines)
    ensures forall k :: 0 <= k < |g| ==> g[k] == LineToIndex(l - ctxLines + k, i, k, k == ctxLines)
  {
    seq(Width(ctxLines), k requires 0 <= k < Width(ctxLines) => LineToIndex(l - ctxLines + k, i, k, k == ctxLines))
  }

  /** The whole index before sorting: the groups of the requested lines, in order. */
  function LineIndex(lines: seq<int>, ctxLines: nat): (r: seq<LineToIndex>)
  {
    if |lines| == 0 then []
    else LineIndex(lines[..|lines| - 1], ctxLines) + Group(lines[|lines| - 1], |lines| - 1, ctxLines)
  }

  /** The index holds `2*ctxLines+1` entries per requested line, exactly one of them the requested line itself. */
  lemma {:induction false} LineIndexShape(lines: seq<int>, ctxLines: nat)
    ensures |LineIndex(lines, ctxLines)| == |lines| * Width(ctxLines)
    ensures forall e :: e in LineIndex(lines, ctxLines) ==>
      && e.index1 < |lines| && e.index2 < Width(ctxLines)
      && e.lineNum == lines[e.index1] - ctxLines + e.index2
      && (e.isLine <==> e.index2 == ctxLines)
    decreases |lines|
  {
    if |lines| > 0 {
      var init := lines[..|lines| - 1];
      LineIndexShape(init, ctxLines);
      assert |lines| * Width(ctxLines) == |init| * Width(ctxLines) + Width(ctxLines);
      forall e | e in LineIndex(lines, ctxLines)
        ensures e.index1 < |lines| && e.lineNum == lines[e.index1] - ctxLines + e.index2
      {
        if e in LineIndex(init, ctxLines) {
          assert lines[e.index1] == init[e.index1];
        }
      }
    }
  }

  /** The index-building loops: the lines before, the line itself, the lines after. */
  method BuildLineIndex(lines: seq<int>, ctxLines: nat) returns (linesToIndex: seq<LineToIndex>)
    ensures linesToIndex == LineIndex(lines, ctxLines)
  {
    linesToIndex := [];
    for i := 0 to |lines|
      invariant linesToIndex == LineIndex(lines[..i], ctxLines)
    {
      var l := lines[i];
      ghost var start := linesToIndex;
      ghost var g := Group(l, i, ctxLines);
      var index2 := 0;
      var j := ctxLines - 1;
      while j >= 0
        invariant -1 <= j < ctxLines && index2 == ctxLines - 1 - j
        invariant linesToIndex == start + g[..index2]
      {
        linesToIndex := linesToIndex + [LineToIndex(l - j - 1, i, index2, false)];
        assert g[..index2 + 1] == g[..index2] + [g[index2]];
        index2 := index2 + 1;
        j := j - 1;
      }
      linesToIndex := linesToIndex + [LineToIndex(l, i, index2, true)];
      assert g[..index2 + 1] == g[..index2] + [g[index2]];
      index2 := index2 + 1;
      for j := 0 to ctxLines
        invariant index2 == ctxLines + 1 + j
        invariant linesToIndex == start + g[..index2]
      {
        linesToIndex := linesToIndex + [LineToIndex(l + j + 1, i, index2, false)];
        assert g[..index2 + 1] == g[..index2] + [g[index2]];
        index2 := index2 + 1;
      }
      assert g[..index2] == g;
      assert lines[..i + 1][..i] == lines[..i];
    }
    assert lines[..|lines|] == lines;
  }

  // ---- unindenting ---------------------------------------------------------

  /** The number of tabs a line starts with. */
  function LeadingTabs(s: string): (r: nat)
    ensures r <= |s|
    ensures forall k :: 0 <= k < r ==> s[k] == '\t'
    ensures r < |s| ==> s[r] != '\t'
  {
    if |s| > 0 && s[0] == '\t' then 1 + LeadingTabs(s[1..]) else 0
  }

  /** Cutting off `m` of the leading tabs leaves the others. */
  lemma {:induction false} LeadingTabsAfterCut(s: string, m: nat)
    requires m <= LeadingTabs(s)
    ensures LeadingTabs(s[m..]) == LeadingTabs(s) - m
    decreases m
  {
    if m > 0 {
      assert s[m..] == s[1..][m - 1..];
      LeadingTabsAfterCut(s[1..], m - 1);
    }
  }

  /** Lines that count for unindenting: inside the file and not empty. */
  predicate Counts(l: SourceLine)
  {
    l.lineNum > 0 && l.source != ""
  }

  /** The least leading-tab count over the counting lines of a group (`MaxInt64`, Go's `int(^uint(0) >> 1)`, when none counts). */
  function MinTabs(group: seq<SourceLine>): (r: int)
    ensures forall j :: 0 <= j < |group| && Counts(group[j]) ==> r <= LeadingTabs(group[j].source)
    ensures r == MaxInt64 || exists j :: 0 <= j < |group| && Counts(group[j]) && r == LeadingTabs(group[j].source)
    ensures r <= MaxInt64 && r >= 0
  {
    if |group| == 0 then MaxInt64
    else
      var m := MinTabs(group[..|group| - 1]);
      var l := group[|group| - 1];
      assert forall j :: 0 <= j < |group| - 1 ==> group[..|group| - 1][j] == group[j];
      if Counts(l) && LeadingTabs(l.source) < m then LeadingTabs(l.source) else m
  }

  /** A counting line loses `m` leading bytes; any other line is kept. */
  function UnindentLine(l: SourceLine, m: nat): (r: SourceLine)
    requires Counts(l) ==> m <= |l.source|
  {
    if Counts(l) then l.(source := l.source[m..]) else l
  }

  /**
   * A group with counting lines loses exactly their common leading tabs: one
   * of them ends with none. (A Go string is at most `MaxInt64` bytes long.)
   */
  lemma {:induction false} UnindentRemovesCommonTabs(group: seq<SourceLine>)
    requires exists j :: 0 <= j < |group| && Counts(group[j])
    requires forall j :: 0 <= j < |group| ==> |group[j].source| <= MaxInt64
    ensures var m := MinTabs(group);
      && (forall j :: 0 <= j < |group| && Counts(group[j]) ==>
            LeadingTabs(UnindentLine(group[j], m).source) == LeadingTabs(group[j].source) - m)
      && (exists j :: 0 <= j < |group| && Counts(group[j]) && LeadingTabs(UnindentLine(group[j], m).source) == 0)
  {
    var m := MinTabs(group);
    var j0 :| 0 <= j0 < |group| && Counts(group[j0]);
    forall j | 0 <= j < |group| && Counts(group[j])
      ensures LeadingTabs(UnindentLine(group[j], m).source) == LeadingTabs(group[j].source) - m
    {
      LeadingTabsAfterCut(group[j].source, m);
    }
    var jm := j0;
    if m != MaxInt64 {
      jm :| 0 <= jm < |group| && Counts(group[jm]) && m == LeadingTabs(group[jm].source);
    }
    assert m == LeadingTabs(group[jm].source);
    assert LeadingTabs(UnindentLine(group[jm], m).source) == 0;
  }

  /** Row `i` of the slot matrix. */
  function Row(a: array2<SourceLine>, i: nat): (r: seq<SourceLine>)
    requires i < a.Length0
    reads a
    ensures |r| == a.Length1 && forall j :: 0 <= j < a.Length1 ==> r[j] == a[i, j]
  {
    seq(a.Length1, j requires 0 <= j < a.Length1 reads a => a[i, j])
  }

  /** The inner loop over the characters of a line. */
  method CountLeadingTabs(s: string) returns (n: nat)
    ensures n == LeadingTabs(s)
  {
    n := 0;
    while n < |s| && s[n] == '\t'
      invariant n <= LeadingTabs(s)
      decreases |s| - n
    {
      n := n + 1;
    }
  }

  /** The counting loop of one group. */
  method MinTabsOfRow(a: array2<SourceLine>, i: nat) returns (minTabIndents: int)
    requires i < a.Length0
    ensures minTabIndents == MinTabs(Row(a, i))
  {
    ghost var row := Row(a, i);
    minTabIndents := MaxInt64;
    for j := 0 to a.Length1
      invariant minTabIndents == MinTabs(row[..j])
    {
      assert row[..j + 1][..j] == row[..j];
      var sl := a[i, j];
      if sl.lineNum <= 0 || sl.source == "" {
        continue;
      }
      var lineTabIndents := CountLeadingTabs(sl.source);
      if lineTabIndents < minTabIndents {
        minTabIndents := lineTabIndents;
      }
    }
    assert row[..a.Length1] == row;
  }

  /** The stripping loop of one group. */
  method StripRow(a: array2<SourceLine>, i: nat, m: nat)
    requires i < a.Length0 && m == MinTabs(Row(a, i))
    modifies a
    ensures forall i', j :: 0 <= i' < a.Length0 && 0 <= j < a.Length1 ==>
      a[i', j] == if i' == i then UnindentLine(old(a[i', j]), m) else old(a[i', j])
  {
    ghost var row := Row(a, i);
    assert forall j' :: 0 <= j' < |row| && Counts(row[j']) ==> m <= |row[j'].source|;
    for j := 0 to a.Length1
      invariant forall i', j' :: 0 <= i' < a.Length0 && i' != i && 0 <= j' < a.Length1 ==> a[i', j'] == old(a[i', j'])
      invariant forall j' :: 0 <= j' < j ==> a[i, j'] == UnindentLine(row[j'], m)
      invariant forall j' :: j <= j' < a.Length1 ==> a[i, j'] == row[j']
    {
      var sl := a[i, j];
      assert sl == row[j];
      if sl.lineNum <= 0 || sl.source == "" {
        assert a[i, j] == UnindentLine(row[j], m);
        continue;
      }
      a[i, j] := sl.(source := sl.source[m..]);
      assert a[i, j] == UnindentLine(row[j], m);
    }
  }

  /** The unindent pass: every group loses the common leading tabs of its counting lines. */
  method Unindent(a: array2<SourceLine>)
    modifies a
    ensures forall i, j :: 0 <= i < a.Length0 && 0 <= j < a.Length1 ==>
      a[i, j] == UnindentLine(old(a[i, j]), MinTabs(old(Row(a, i))))
  {
    for i := 0 to a.Length0
      invariant forall i', j :: 0 <= i' < i && 0 <= j < a.Length1 ==>
        a[i', j] == UnindentLine(old(a[i', j]), MinTabs(old(Row(a, i'))))
      invariant forall i', j :: i <= i' < a.Length0 && 0 <= j < a.Length1 ==> a[i', j] == old(a[i', j])
    {
      assert Row(a, i) == old(Row(a, i));
      var m := MinTabsOfRow(a, i);
      StripRow(a, i, m);
    }
  }

  // ---- column capping ------------------------------------------------------

  /** With a positive cap, a line longer than the cap keeps its first `colCap` bytes. */
  function CapLine(l: SourceLine, colCap: nat): (r: SourceLine)
    ensures r.lineNum == l.lineNum
    ensures colCap > 0 ==> |r.source| <= colCap
    ensures |r.source| <= |l.source| && r.source == l.source[..|r.source|]
    ensures colCap == 0 || |l.source| <= colCap ==> r == l
  {
    if colCap > 0 && |l.source| > colCap then l.(source := l.source[..colCap]) else l
  }

  /** The capping loops over all slots. */
  method CapColumns(a: array2<SourceLine>, colCap: nat)
    modifies a
    ensures forall i, j :: 0 <= i < a.Length0 && 0 <= j < a.Length1 ==> a[i, j] == CapLine(old(a[i, j]), colCap)
  {
    if colCap == 0 {
      return;
    }
    for i := 0 to a.Length0
      invariant forall i', j :: 0 <= i' < a.Length0 && 0 <= j < a.Length1 ==>
        a[i', j] == if i' < i then CapLine(old(a[i', j]), colCap) else old(a[i', j])
    {
      for j := 0 to a.Length1
        invariant forall i', j' :: 0 <= i' < a.Length0 && 0 <= j' < a.Length1 ==>
          a[i', j'] == if i' < i || (i' == i && j' < j) then CapLine(old(a[i', j']), colCap) else old(a[i', j'])
      {
        if |a[i, j].source| > colCap {
          a[i, j] := a[i, j].(source := a[i, j].source[..colCap]);
        }
      }
    }
  }

  // ---- the steps before and after reading the file ------------------------

  /**
   * Before reading: clamp `ctxLines`, allocate one group of zero slots per
   * requested line and lay out the index.
   */
  method PrepareSourceLines(lines: seq<int>, ctxLines: int) returns (slots: array2<SourceLine>, linesToIndex: seq<LineToIndex>)
    ensures fresh(slots)
    ensures slots.Length0 == |lines| && slots.Length1 == Width(Clamp(ctxLines))
    ensures forall i, j :: 0 <= i < slots.Length0 && 0 <= j < slots.Length1 ==> slots[i, j] == SourceLine(0, "")
    ensures linesToIndex == LineIndex(lines, Clamp(ctxLines))
  {
    var c := Clamp(ctxLines);
    slots := new SourceLine[|lines|, Width(c)]((i, j) => SourceLine(0, ""));
    linesToIndex := BuildLineIndex(lines, c);
  }

  /** After reading: unindent when asked, then cap every line at the clamped `colCap`. */
  method FinishSourceLines(slots: array2<SourceLine>, colCap: int, unindent: bool)
    modifies slots
    ensures forall i, j :: 0 <= i < slots.Length0 && 0 <= j < slots.Length1 ==>
      slots[i, j] == CapLine(if unindent then UnindentLine(old(slots[i, j]), MinTabs(old(Row(slots, i))))
                             else old(slots[i, j]), Clamp(colCap))
  {
    if unindent {
      Unindent(slots);
    }
    CapColumns(slots, Clamp(colCap));
  }
}
