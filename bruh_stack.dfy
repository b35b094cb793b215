// pkg/bruh/stack.go: raw program-counter stacks, their resolution into
// frames, and the suffix-trimming that makes an outer error's stack
// relative to an inner one.
module BruhStack {
  import opened Text
  import opened Chain

  /** `MAX_STACK_DEPTH` in the default build: frames captured per error. */
  const MaxStackDepth: nat := 32

  // ---- relativeTo -------------------------------------------------------

  /** The length of the longest common suffix of `s` and `other`. */
  function SharedSuffixLen<T(==)>(s: seq<T>, other: seq<T>): (k: nat)
    ensures k <= |s| && k <= |other|
  {
    if |s| > 0 && |other| > 0 && s[|s| - 1] == other[|other| - 1]
    then 1 + SharedSuffixLen(s[..|s| - 1], other[..|other| - 1])
    else 0
  }

  /** `s` without the frames it shares, at its end, with `other`. */
  function Relative<T(==)>(s: seq<T>, other: seq<T>): (r: seq<T>)
    ensures |r| <= |s|
  {
    s[..|s| - SharedSuffixLen(s, other)]
  }

  /** The frames cut away are the same at the end of both stacks. */
  lemma {:induction false} SharedSuffixMatches<T>(s: seq<T>, other: seq<T>)
    ensures var k := SharedSuffixLen(s, other);
      s[|s| - k..] == other[|other| - k..]
    decreases |s|
  {
    if |s| > 0 && |other| > 0 && s[|s| - 1] == other[|other| - 1] {
      var s', o' := s[..|s| - 1], other[..|other| - 1];
      SharedSuffixMatches(s', o');
      var k' := SharedSuffixLen(s', o');
      assert s[|s| - (k' + 1)..] == s'[|s'| - k'..] + [s[|s| - 1]];
      assert other[|other| - (k' + 1)..] == o'[|o'| - k'..] + [other[|other| - 1]];
    }
  }

  /** The cut is as long as possible: the frames just before it differ. */
  lemma {:induction false} SharedSuffixMaximal<T>(s: seq<T>, other: seq<T>)
    ensures var k := SharedSuffixLen(s, other);
      k < |s| && k < |other| ==> s[|s| - k - 1] != other[|other| - k - 1]
    decreases |s|
  {
    if |s| > 0 && |other| > 0 && s[|s| - 1] == other[|other| - 1] {
      var s', o' := s[..|s| - 1], other[..|other| - 1];
      SharedSuffixMaximal(s', o');
    }
  }

  /**
   * The relative stack is a prefix of `s`; the rest of `s` is also the end
   * of `other`; and the cut is as long as possible: the last kept frame
   * differs from the frame of `other` it was compared with, or one side ran out.
   */
  lemma RelativeSplits<T>(s: seq<T>, other: seq<T>)
    ensures var r := Relative(s, other);
      var k := |s| - |r|;
      && s == r + s[|r|..]
      && k <= |other| && s[|r|..] == other[|other| - k..]
      && (|r| > 0 && k < |other| ==> s[|r| - 1] != other[|other| - k - 1])
  {
    SharedSuffixMatches(s, other);
    SharedSuffixMaximal(s, other);
  }

  /** Any common suffix at most as long as the shared one is cut away. */
  lemma {:induction false} SharedSuffixIsLongest<T>(s: seq<T>, other: seq<T>, j: nat)
    requires j <= |s| && j <= |other| && s[|s| - j..] == other[|other| - j..]
    ensures SharedSuffixLen(s, other) >= j
    decreases j
  {
    if j > 0 {
      assert s[|s| - 1] == s[|s| - j..][j - 1] == other[|other| - j..][j - 1] == other[|other| - 1];
      var s', o' := s[..|s| - 1], other[..|other| - 1];
      assert s'[|s'| - (j - 1)..] == s[|s| - j..][..j - 1];
      assert o'[|o'| - (j - 1)..] == other[|other| - j..][..j - 1];
      SharedSuffixIsLongest(s', o', j - 1);
    }
  }

  /** A stack relative to itself is empty; relative to an empty stack it is whole. */
  lemma RelativeExtremes<T>(s: seq<T>)
    ensures Relative(s, s) == []
    ensures Relative(s, []) == s
  {
    SharedSuffixIsLongest(s, s, |s|);
  }

  /**
   * `Stack.RelativeTo` (and the identical `stackPC.relativeTo`): walk both
   * stacks backwards while their frames agree, and keep what precedes.
   */
  method RelativeTo<T(==)>(s: seq<T>, other: seq<T>) returns (r: seq<T>)
    ensures r == Relative(s, other)
  {
    var othInd := |other| - 1;
    var curInd := |s| - 1;
    assert s[..curInd + 1] == s && other[..othInd + 1] == other;
    while true
      invariant -1 <= curInd < |s| && -1 <= othInd < |other|
      invariant |s| - 1 - curInd == |other| - 1 - othInd
      invariant SharedSuffixLen(s, other) == (|s| - 1 - curInd) + SharedSuffixLen(s[..curInd + 1], other[..othInd + 1])
      decreases curInd
    {
      if othInd < 0 || curInd < 0 {
        break;
      }
      if other[othInd] != s[curInd] {
        break;
      }
      assert s[..curInd + 1][..curInd] == s[..curInd];
      assert other[..othInd + 1][..othInd] == other[..othInd];
      othInd := othInd - 1;
      curInd := curInd - 1;
    }
    r := s[..curInd + 1];
  }

  /**
   * The rule the package's test for identical stacks states ("we keep at
   * least one frame"), which `relativeTo` as written does not follow: when
   * nothing would be left of a non-empty stack, its first frame is kept.
   */
  function RelativeKeepOne<T(==)>(s: seq<T>, other: seq<T>): (r: seq<T>)
    ensures |s| > 0 ==> |r| > 0
    ensures |r| <= |s| && r == s[..|r|]
    ensures |Relative(s, other)| > 0 ==> r == Relative(s, other)
  {
    if |s| > 0 && |Relative(s, other)| == 0 then s[..1] else Relative(s, other)
  }

  /** On the test's identical stacks the code keeps nothing, the test's rule one frame. */
  lemma IdenticalStacks()
    ensures Relative([0x123, 0x456, 0x789], [0x123, 0x456, 0x789]) == []
    ensures RelativeKeepOne([0x123, 0x456, 0x789], [0x123, 0x456, 0x789]) == [0x123]
  {
    RelativeExtremes([0x123, 0x456, 0x789]);
  }

  /** The test's similar stacks: the three shared oldest frames go. */
  lemma SimilarStacks()
    ensures Relative([0x111, 0x222, 0x333, 0x444, 0x555], [0x888, 0x999, 0x333, 0x444, 0x555]) == [0x111, 0x222]
  {
    var s := [0x111, 0x222, 0x333, 0x444, 0x555];
    var o := [0x888, 0x999, 0x333, 0x444, 0x555];
    assert s[..4] == [0x111, 0x222, 0x333, 0x444] && o[..4] == [0x888, 0x999, 0x333, 0x444];
    assert s[..3] == [0x111, 0x222, 0x333] && o[..3] == [0x888, 0x999, 0x333];
    assert s[..2] == [0x111, 0x222] && o[..2] == [0x888, 0x999];
    assert s[..4][..3] == s[..3] && o[..4][..3] == o[..3];
    assert s[..3][..2] == s[..2] && o[..3][..2] == o[..2];
    assert SharedSuffixLen(s[..2], o[..2]) == 0;
    assert SharedSuffixLen(s[..3], o[..3]) == 1;
    assert SharedSuffixLen(s[..4], o[..4]) == 2;
    assert SharedSuffixLen(s, o) == 3;
  }

  // ---- combining the layers of a chain -------------------------------------

  /**
   * The fold `cbd = cbd.relativeTo(cur) ++ cur` over the stacks of a chain's
   * layers (outermost first), starting from the innermost one.
   */
  function Combine<T(==)>(layers: seq<seq<T>>): (r: seq<T>)
    requires |layers| > 0
    ensures |layers[0]| <= |r| && r[|r| - |layers[0]|..] == layers[0]
  {
    if |layers| == 1 then layers[0]
    else Relative(Combine(layers[1..]), layers[0]) + layers[0]
  }

  function TotalLength<T>(layers: seq<seq<T>>): nat
  {
    if |layers| == 0 then 0 else |layers[0]| + TotalLength(layers[1..])
  }

  /** The combined stack is never longer than all layers together. */
  lemma {:induction false} CombineLength<T>(layers: seq<seq<T>>)
    requires |layers| > 0
    ensures |Combine(layers)| <= TotalLength(layers)
  {
    if |layers| > 1 {
      CombineLength(layers[1..]);
    }
  }

  /** A layer that extends the layers below it (its tail is their combination) adds only its new frames. */
  lemma CombineExtends<T>(layers: seq<seq<T>>, front: seq<T>)
    requires |layers| > 1 && layers[0] == front + Combine(layers[1..])
    ensures Combine(layers) == layers[0]
  {
    var inner := Combine(layers[1..]);
    var l := layers[0];
    SharedSuffixMatches(inner, l);
    assert SharedSuffixLen(inner, l) == |inner| by {
      SharedSuffixIsWhole(inner, front);
    }
  }

  /** A stack shares its whole self with any extension of it. */
  lemma {:induction false} SharedSuffixIsWhole<T>(s: seq<T>, front: seq<T>)
    ensures SharedSuffixLen(s, front + s) == |s|
    decreases |s|
  {
    if |s| > 0 {
      assert (front + s)[..|front + s| - 1] == front + s[..|s| - 1];
      SharedSuffixIsWhole(s[..|s| - 1], front);
    }
  }

  // ---- First / Last -----------------------------------------------------

  /** `First(x)`: at most the first `x` frames; a negative `x` would panic in the slice. */
  function First<T>(s: seq<T>, x: int): (r: seq<T>)
    requires x >= 0
    ensures |r| == if |s| <= x then |s| else x
    ensures r == s[..|r|]
  {
    if |s| <= x then s else s[..x]
  }

  /** `Last(x)`: at most the last `x` frames. */
  function Last<T>(s: seq<T>, x: int): (r: seq<T>)
    requires x >= 0
    ensures |r| == if |s| <= x then |s| else x
    ensures r == s[|s| - |r|..]
  {
    if |s| <= x then s else s[|s| - x..]
  }

  // ---- capture and resolution --------------------------------------------

  /**
   * What `runtime.Callers(skip, buf)` stores: the goroutine's stack with
   * `skip` frames passed over, cut to the buffer. `stack` is the call stack
   * at the moment of the call, innermost first: element 0 is
   * `runtime.Callers` itself, element 1 its caller, and so on.
   */
  function RuntimeCallers(skip: nat, stack: seq<PC>, size: nat): (r: seq<PC>)
    ensures |r| <= size
    ensures skip <= |stack| ==> r == First(stack[skip..], size)
    ensures skip >= |stack| ==> r == []
  {
    First(stack[if skip <= |stack| then skip else |stack|..], size)
  }

  /** `callers(skip)`: the program counters `runtime.Callers` puts into a 32-entry buffer. */
  function Callers(skip: nat, stack: seq<PC>): (r: seq<PC>)
    ensures |r| <= MaxStackDepth
    ensures skip <= |stack| ==> |r| <= |stack| - skip && r == stack[skip..][..|r|]
    ensures skip <= |stack| && |stack| - skip <= MaxStackDepth ==> r == stack[skip..]
  {
    RuntimeCallers(skip, stack, MaxStackDepth)
  }

  function FrameOf(pc: PC, resolve: PC -> Symbol): (f: Frame)
    ensures f.pc == pc && f.name == resolve(pc).fn
    ensures f.file == resolve(pc).file && f.line == resolve(pc).line
  {
    var sym := resolve(pc);
    Frame(sym.fn, sym.file, sym.line, pc)
  }

  predicate IsInit(sym: Symbol)
  {
    sym.fn == "runtime.doInit"
  }

  predicate IsRuntime(sym: Symbol)
  {
    Contains(sym.file, "runtime/")
  }

  /**
   * The frames of `pcs` up to the first runtime frame, or `None` when a
   * package initialiser (`runtime.doInit`) comes first: such an error was
   * created by a global variable and keeps no stack.
   */
  function Scan(pcs: seq<PC>, resolve: PC -> Symbol): (r: Option<seq<Frame>>)
    ensures r.Some? ==> |r.value| <= |pcs|
  {
    if |pcs| == 0 then Some([])
    else if IsInit(resolve(pcs[0])) then None
    else if IsRuntime(resolve(pcs[0])) then Some([])
    else match Scan(pcs[1..], resolve)
      case None => None
      case Some(rest) => Some([FrameOf(pcs[0], resolve)] + rest)
  }

  /** The stack `toStack` builds: the scanned frames, empty for a global. */
  function Frames(pcs: seq<PC>, resolve: PC -> Symbol): (r: seq<Frame>)
  {
    match Scan(pcs, resolve)
    case None => []
    case Some(frames) => frames
  }

  /**
   * The frames are the resolutions of a prefix of `pcs`, none of them a
   * runtime frame, and they stop only at a runtime frame, at the end, or
   * (with nothing kept) at a package initialiser.
   */
  lemma {:induction false} FramesAreResolvedPrefix(pcs: seq<PC>, resolve: PC -> Symbol)
    ensures var r := Frames(pcs, resolve);
      && |r| <= |pcs|
      && (forall i :: 0 <= i < |r| ==> r[i] == FrameOf(pcs[i], resolve))
      && (forall i :: 0 <= i < |r| ==> !IsRuntime(resolve(pcs[i])) && !IsInit(resolve(pcs[i])))
      && (Scan(pcs, resolve).Some? && |r| < |pcs| ==> IsRuntime(resolve(pcs[|r|])))
  {
    if |pcs| > 0 && !IsInit(resolve(pcs[0])) && !IsRuntime(resolve(pcs[0])) {
      FramesAreResolvedPrefix(pcs[1..], resolve);
      var rest := Frames(pcs[1..], resolve);
      if Scan(pcs[1..], resolve).Some? {
        assert Frames(pcs, resolve) == [FrameOf(pcs[0], resolve)] + rest;
        forall i | 1 <= i < |rest| + 1
          ensures pcs[i] == pcs[1..][i - 1]
        {
        }
      }
    }
  }

  /** A package initialiser anywhere before the first runtime frame discards the whole stack. */
  lemma {:induction false} InitDiscardsStack(pcs: seq<PC>, resolve: PC -> Symbol, j: nat)
    requires j < |pcs| && IsInit(resolve(pcs[j]))
    requires forall i :: 0 <= i < j ==> !IsRuntime(resolve(pcs[i])) && !IsInit(resolve(pcs[i]))
    ensures Scan(pcs, resolve).None? && Frames(pcs, resolve) == []
  {
    if j > 0 {
      forall i | 0 <= i < j - 1
        ensures !IsRuntime(resolve(pcs[1..][i])) && !IsInit(resolve(pcs[1..][i]))
      {
        assert pcs[1..][i] == pcs[i + 1];
      }
      InitDiscardsStack(pcs[1..], resolve, j - 1);
    }
  }

  /**
   * `stackPC.toStack`: resolve frame by frame; a package initialiser drops
   * the whole stack, the first runtime frame ends it.
   */
  method ToStack(s: seq<PC>, resolve: PC -> Symbol) returns (stack: seq<Frame>)
    ensures stack == Frames(s, resolve)
  {
    if |s| == 0 {
      return [];
    }
    stack := [];
    var i := 0;
    assert s[i..] == s;
    assert Scan(s[i..], resolve).Some? ==> stack + Scan(s[i..], resolve).value == Scan(s[i..], resolve).value;
    while true
      invariant 0 <= i < |s|
      invariant Scan(s[i..], resolve).None? ==> Scan(s, resolve).None?
      invariant Scan(s[i..], resolve).Some? ==> Scan(s, resolve) == Some(stack + Scan(s[i..], resolve).value)
      decreases |s| - i
    {
      var sym := resolve(s[i]);
      if sym.fn == "runtime.doInit" {
        return [];
      }
      if Contains(sym.file, "runtime/") {
        break;
      }
      assert s[i..][1..] == s[i + 1..];
      var frame := Frame(sym.fn, sym.file, sym.line, s[i]);
      assert Scan(s[i..], resolve).Some? ==> Scan(s[i..], resolve).value == [frame] + Scan(s[i + 1..], resolve).value;
      if Scan(s[i + 1..], resolve).Some? {
        var rest := Scan(s[i + 1..], resolve).value;
        assert stack + ([frame] + rest) == (stack + [frame]) + rest;
      }
      stack := stack + [frame];
      var more := i + 1 < |s|;
      if !more {
        assert s[i + 1..] == [];
        break;
      }
      i := i + 1;
    }
  }

  // ---- String -----------------------------------------------------------

  /** One frame as `Stack.String` prints it: name, then an indented `file:line pc=0x…`. */
  function FrameText(f: Frame): string
  {
    f.name + "\n        " + f.file + ":" + Decimal(f.line) + " pc=0x" + Hex(f.pc)
  }

  function FrameTexts(s: seq<Frame>): (r: seq<string>)
    ensures |r| == |s|
    ensures forall i :: 0 <= i < |s| ==> r[i] == FrameText(s[i])
  {
    if |s| == 0 then [] else FrameTexts(s[..|s| - 1]) + [FrameText(s[|s| - 1])]
  }

  /** `Stack.String`: the frames' texts, one after another on their own lines. */
  method StackString(s: seq<Frame>) returns (out: string)
    ensures out == Join(FrameTexts(s), "\n")
  {
    var formatted: seq<string> := [];
    for i := 0 to |s|
      invariant formatted == FrameTexts(s[..i])
    {
      assert s[..i + 1][..i] == s[..i];
      formatted := formatted + [FrameText(s[i])];
    }
    assert s[..|s|] == s;
    out := Join(formatted, "\n");
  }

  /** A further frame adds exactly one newline and its own text. */
  lemma StackStringSnoc(s: seq<Frame>, f: Frame)
    requires |s| > 0
    ensures Join(FrameTexts(s + [f]), "\n") == Join(FrameTexts(s), "\n") + "\n" + FrameText(f)
  {
    assert (s + [f])[..|s|] == s;
    JoinSnoc(FrameTexts(s), FrameText(f), "\n");
  }
}
