// pkg/errors/stack.go: the oldest generation's stacks. Program counters are
// resolved one frame each, names keep only what follows the last "/", and
// a stack made relative to another loses the frames they share at the end.
module ErrorsStack {
  import opened Text
  import opened Chain
  import BruhStack

  /** The size of the buffer `callers` hands to `runtime.Callers`. */
  const CallersDepth: nat := 64

  // ---- relativeStack --------------------------------------------------------

  /**
   * `relativeStack(prvStack, nxtStack)`: walk both stacks backwards while
   * their frames agree and keep what precedes in `nxtStack`.
   */
  method RelativeStack<T(==)>(prvStack: seq<T>, nxtStack: seq<T>) returns (r: seq<T>)
    ensures r == BruhStack.Relative(nxtStack, prvStack)
  {
    var prvInd := |prvStack| - 1;
    var curInd := |nxtStack| - 1;
    assert nxtStack[..curInd + 1] == nxtStack && prvStack[..prvInd + 1] == prvStack;
    while true
      invariant -1 <= prvInd < |prvStack| && -1 <= curInd < |nxtStack|
      invariant |prvStack| - prvInd == |nxtStack| - curInd
      invariant BruhStack.SharedSuffixLen(nxtStack, prvStack)
             == (|nxtStack| - 1 - curInd) + BruhStack.SharedSuffixLen(nxtStack[..curInd + 1], prvStack[..prvInd + 1])
      decreases prvInd
    {
      if prvInd < 0 || curInd < 0 {
        break;
      }
      if prvStack[prvInd] != nxtStack[curInd] {
        break;
      }
      assert nxtStack[..curInd + 1][..curInd] == nxtStack[..curInd];
      assert prvStack[..prvInd + 1][..prvInd] == prvStack[..prvInd];
      prvInd := prvInd - 1;
      curInd := curInd - 1;
    }
    r := nxtStack[..curInd + 1];
  }

  /**
   * What `relativeStack` keeps is a prefix of `nxtStack`; what it drops is
   * the end of `prvStack` too, and it drops as much as it can.
   */
  lemma RelativeStackSplits<T>(prvStack: seq<T>, nxtStack: seq<T>)
    ensures var r := BruhStack.Relative(nxtStack, prvStack);
      var k := |nxtStack| - |r|;
      && nxtStack == r + nxtStack[|r|..]
      && k <= |prvStack| && nxtStack[|r|..] == prvStack[|prvStack| - k..]
      && (|r| > 0 && k < |prvStack| ==> nxtStack[|r| - 1] != prvStack[|prvStack| - k - 1])
  {
    BruhStack.RelativeSplits(nxtStack, prvStack);
  }

  // ---- format -----------------------------------------------------------------

  /** `StackFrame.format(sep)`: name, file and line, `sep` between each two. */
  function FrameFormat(f: Frame, sep: string): string
  {
    f.name + sep + f.file + sep + Decimal(f.line)
  }

  function Formatted(s: seq<Frame>, sep: string): (r: seq<string>)
    ensures |r| == |s|
  {
    seq(|s|, i requires 0 <= i < |s| => FrameFormat(s[i], sep))
  }

  /**
   * `Stack.format(sep, invert)`: one formatted line per frame; despite its
   * name, `invert` keeps the stack's order and its absence reverses it.
   */
  method Format(s: seq<Frame>, sep: string, invert: bool) returns (str: seq<string>)
    ensures invert ==> str == Formatted(s, sep)
    ensures !invert ==> str == Reverse(Formatted(s, sep))
  {
    str := [];
    for i := 0 to |s|
      invariant invert ==> str == Formatted(s[..i], sep)
      invariant !invert ==> str == Reverse(Formatted(s[..i], sep))
    {
      FormattedSnoc(s, sep, i);
      if invert {
        str := str + [FrameFormat(s[i], sep)];
      } else {
        str := [FrameFormat(s[i], sep)] + str;
      }
    }
    assert s[..|s|] == s;
  }

  lemma FormattedSnoc(s: seq<Frame>, sep: string, i: nat)
    requires i < |s|
    ensures Formatted(s[..i + 1], sep) == Formatted(s[..i], sep) + [FrameFormat(s[i], sep)]
    ensures Reverse(Formatted(s[..i + 1], sep)) == [FrameFormat(s[i], sep)] + Reverse(Formatted(s[..i], sep))
  {
    var longer := Formatted(s[..i + 1], sep);
    assert longer == Formatted(s[..i], sep) + [FrameFormat(s[i], sep)];
    assert longer[..i] == Formatted(s[..i], sep);
  }

  /** The two orders are each other's reverse: line `i` of one is line `n-1-i` of the other. */
  lemma FormatOrders(s: seq<Frame>, sep: string)
    ensures Reverse(Reverse(Formatted(s, sep))) == Formatted(s, sep)
    ensures forall i :: 0 <= i < |s| ==> Reverse(Formatted(s, sep))[i] == FrameFormat(s[|s| - 1 - i], sep)
  {
    ReverseInvolutive(Formatted(s, sep));
  }

  // ---- framePC ----------------------------------------------------------------

  /** `framePC.pc()`: the stored value minus one, wrapping around as a `uintptr` does. */
  function Pc(f: PC): (r: PC)
    ensures (r + 1) % UintptrModulus == f
    ensures f > 0 ==> r + 1 == f
  {
    (f - 1) % UintptrModulus
  }

  /** Only the part of a function name after its last "/", the whole name when there is none. */
  function ShortName(fn: string): (r: string)
    ensures HasSuffix(fn, r)
    ensures '/' !in r
    ensures '/' !in fn ==> r == fn
  {
    var j := LastIndexOf(fn, '/');
    assert '/' !in fn ==> j == -1;
    fn[j + 1..]
  }

  /** The slice taken after `strings.LastIndex` is the text after the last "/". */
  lemma {:induction false} ShortNameIsAfterLast(fn: string)
    ensures ShortName(fn) == AfterLast(fn, '/')
    decreases |fn|
  {
    if |fn| > 0 && fn[|fn| - 1] != '/' {
      var init := fn[..|fn| - 1];
      ShortNameIsAfterLast(init);
      assert LastIndexOf(fn, '/') == LastIndexOf(init, '/');
      assert fn[LastIndexOf(fn, '/') + 1..] == init[LastIndexOf(init, '/') + 1..] + [fn[|fn| - 1]];
    }
  }

  /** A resolved frame: the short name, file and line of `pc`, and `pc` itself. */
  function Resolved(pc: PC, resolve: PC -> Symbol): (f: Frame)
    ensures f.pc == pc && f.file == resolve(pc).file && f.line == resolve(pc).line
    ensures f.name == ShortName(resolve(pc).fn)
  {
    var sym := resolve(pc);
    Frame(ShortName(sym.fn), sym.file, sym.line, pc)
  }

  /** `framePC.get()`: the frame of the counter one before the stored one. */
  function Get(f: PC, resolve: PC -> Symbol): (r: Frame)
    ensures (r.pc + 1) % UintptrModulus == f
    ensures r == Resolved(r.pc, resolve)
  {
    Resolved(Pc(f), resolve)
  }

  // ---- stackPC ----------------------------------------------------------------

  /** The frame `runtime.CallersFrames` yields when there is none: all fields zero. */
  const ZeroFrame: Frame := Frame("", "", 0, 0)

  /**
   * The frames `stackPC.get` collects: one per counter, and one zero frame
   * for an empty stack, since the loop appends what `Next` returns before
   * it looks at `more`.
   */
  function StackFrames(s: seq<PC>, resolve: PC -> Symbol): (r: seq<Frame>)
    ensures |s| == 0 ==> r == [ZeroFrame]
    ensures |s| > 0 ==> |r| == |s| && forall i :: 0 <= i < |s| ==> r[i] == Resolved(s[i], resolve)
  {
    if |s| == 0 then [ZeroFrame] else seq(|s|, i requires 0 <= i < |s| => Resolved(s[i], resolve))
  }

  /** What the `i`-th call of `Next` yields. */
  function NextFrame(s: seq<PC>, resolve: PC -> Symbol, i: nat): Frame
  {
    if i < |s| then Resolved(s[i], resolve) else ZeroFrame
  }

  lemma StackFramesSnoc(s: seq<PC>, resolve: PC -> Symbol, i: nat)
    requires i < |StackFrames(s, resolve)|
    ensures StackFrames(s, resolve)[..i + 1] == StackFrames(s, resolve)[..i] + [NextFrame(s, resolve, i)]
  {
    var r := StackFrames(s, resolve);
    assert r[i] == NextFrame(s, resolve, i);
    assert r[..i + 1] == r[..i] + [r[i]];
  }

  /** `stackPC.get()`: iterate the frames, appending each, until `more` is false. */
  method GetStack(s: seq<PC>, resolve: PC -> Symbol) returns (stackFrames: seq<Frame>)
    ensures stackFrames == StackFrames(s, resolve)
  {
    ghost var all := StackFrames(s, resolve);
    stackFrames := [];
    var i := 0;
    while true
      invariant i < |all|
      invariant stackFrames == all[..i]
      decreases |s| - i
    {
      var frame := NextFrame(s, resolve, i);
      var more := i + 1 < |s|;
      StackFramesSnoc(s, resolve, i);
      stackFrames := stackFrames + [frame];
      if !more {
        break;
      }
      i := i + 1;
    }
    assert all[..i + 1] == all;
  }

  /** Whether some frame of the stack is a package initialiser, its name compared case-insensitively. */
  predicate IsGlobalStack(s: seq<PC>, resolve: PC -> Symbol)
  {
    exists i :: 0 <= i < |StackFrames(s, resolve)| && ToLower(StackFrames(s, resolve)[i].name) == "runtime.doinit"
  }

  /** `stackPC.isGlobal()`: scan the frames for `runtime.doinit`. */
  method IsGlobal(s: seq<PC>, resolve: PC -> Symbol) returns (global: bool)
    ensures global <==> IsGlobalStack(s, resolve)
  {
    var frames := GetStack(s, resolve);
    for k := 0 to |frames|
      invariant forall i :: 0 <= i < k ==> ToLower(frames[i].name) != "runtime.doinit"
    {
      if ToLower(frames[k].name) == "runtime.doinit" {
        return true;
      }
    }
    return false;
  }

  /** An empty stack is never global: its zero frame has no name. */
  lemma EmptyIsNotGlobal(resolve: PC -> Symbol)
    ensures !IsGlobalStack([], resolve)
  {
    assert StackFrames([], resolve) == [ZeroFrame];
    assert ToLower("") == "";
  }

  lemma LowerInit()
    ensures ToLower("runtime.doInit") == "runtime.doinit"
  {
    var l := ToLower("runtime.doInit");
    assert l[0] == 'r' && l[1] == 'u' && l[2] == 'n' && l[3] == 't' && l[4] == 'i' && l[5] == 'm' && l[6] == 'e';
    assert l[7] == '.' && l[8] == 'd' && l[9] == 'o' && l[10] == 'i' && l[11] == 'n' && l[12] == 'i' && l[13] == 't';
    assert l == [l[0], l[1], l[2], l[3], l[4], l[5], l[6], l[7], l[8], l[9], l[10], l[11], l[12], l[13]];
  }

  lemma ShortInit()
    ensures ShortName("runtime.doInit") == "runtime.doInit"
  {
    var n := "runtime.doInit";
    forall i | 0 <= i < 14
      ensures n[i] != '/'
    {
    }
  }

  /** A counter resolving to `runtime.doInit` makes its stack global. */
  lemma InitMakesGlobal(s: seq<PC>, resolve: PC -> Symbol, j: nat)
    requires j < |s| && resolve(s[j]).fn == "runtime.doInit"
    ensures IsGlobalStack(s, resolve)
  {
    ShortInit();
    LowerInit();
    assert ToLower(StackFrames(s, resolve)[j].name) == "runtime.doinit";
  }

  // ---- callers ----------------------------------------------------------------

  /**
   * `callers(skip)`: what `runtime.Callers` put in a 64-entry buffer with
   * its last two entries dropped; fewer than two entries would make the
   * slice bound negative and panic.
   */
  function Callers(skip: nat, stack: seq<PC>): (r: seq<PC>)
    requires |BruhStack.RuntimeCallers(skip, stack, CallersDepth)| >= 2
    ensures |r| == |BruhStack.RuntimeCallers(skip, stack, CallersDepth)| - 2
    ensures r == BruhStack.RuntimeCallers(skip, stack, CallersDepth)[..|r|]
    ensures skip + 2 <= |stack| <= skip + CallersDepth ==> r == stack[skip..|stack| - 2]
  {
    var pcs := BruhStack.RuntimeCallers(skip, stack, CallersDepth);
    pcs[..|pcs| - 2]
  }
}
