# go-bruh, modelled in Dafny

go-bruh is a Go library for chains of errors. Each node of a chain carries a
message, optionally the error it wraps, and the program counters captured
where it was made. This project models the part of the library that works on
those chains once they exist:

- diffing and combining the captured stacks (`RelativeTo`, `relativeStack`,
  `combinedStack`, `FullStack`);
- walking a mixed chain of stack-bearing and foreign errors into an ordered
  element list (the `Unpacker` and the two older `Unpack` functions);
- the message joiners and the text formatters: Java stack trace, Go panic,
  Python traceback, the "bruh" layouts with and without source lines, and
  the JSON serialiser of `pkg/errors`;
- the key/value contexts of the three context-error generations, and the
  multi-error list with its renderer;
- the support code: the string builder, decimal digit counting and the ANSI
  colour writer (the SGR sequences of ECMA-48, section 8.3.117).

Each core Go file has its own Dafny module. Where the library has several
generations of one concept (`pkg/bruh/error.go` and
`pkg/bruh/traceable_error.go`, `pkg/bruh/format.go` and
`pkg/bruh/unpacker.go`, the three context errors), each generation keeps its
own module. Two modules are shared:

- `Chain` is the error value as the library sees it through its small
  interfaces. It records the dynamic type, the `Error()` text, the optional
  `Message()`, the optional program counters, whether `Stack()` and
  `FullStack()` exist, the optional context map and the `Unwrap()` link.
- `Text` holds the pieces of Go's `strings` and `strconv` packages the
  library uses.

A Go string is a sequence of bytes; here each byte is one `char`. Program
counters are integers below 2^64. Symbol resolution is a parameter
`resolve: PC -> Symbol` that gives one frame per program counter.

Code that changes state step by step is modelled imperatively:

- the string builder, the colourer, the `Unpacker`, the slice pools and the
  three context errors are classes whose methods update their fields;
- the combining buffer of `combinedStack` and the source-line slots are
  arrays;
- every loop of the source is a `while` or `for` loop with its invariants.

Each such method is proved against a function that states what it
computes, and the properties the library promises are lemmas about those
functions.

Where the library's specification and its code disagree, the model follows
the code:

- Identical stacks. The documented rule, and the expectation in
  pkg/bruh/stack_test.go:397-411, keep one frame when a stack is made
  relative to an identical one. The `RelativeTo` and `relativeTo` of
  pkg/bruh/stack.go return an empty stack. `BruhStack.RelativeTo` and `BruhStack.Relative`
  model the code. `BruhStack.RelativeKeepOne` is the keep-one rule, and
  `BruhStack.IdenticalStacks` states the difference.
- Java cause order. The doc comment of
  pkg/bruh/format_java_stacktrace.go lists the innermost error first. The
  code writes the outermost error first and puts "Caused by: " before each
  cause.
- Go panic program counter. pkg/bruh/format_go_panic.go:47 reads a field
  `ProgramCounter2`, and no `StackFrame` field of that name exists. The model prints the
  frame's own program counter (`GoPanic.PcAsInt64`).
- `Stack.RelativeTo` of `pkg/errors`, called at pkg/errors/format.go:150,
  is not part of this model. Where it is called, the model uses
  `relativeStack` of pkg/errors/stack.go:95-111.
- `stackPC.RelativeTo` of `pkg/errors`, called at pkg/errors/error.go:155,
  is not part of this model either. `Errors.Accumulate`, `Errors.FullPCs`
  and `Errors.FullStack` use `relativeStack` of pkg/errors/stack.go:95-111
  (`BruhStack.Relative`) in its place.

| file | module |
|---|---|
| text.dfy | `Text`: string and number helpers of Go's standard library |
| chain.dfy | `Chain`: errors, frames, context values, `Unwrap`, `Cause` |
| util.dfy | `Util`: internal/util/util.go |
| stringbuilder.dfy | `StringBuilder`: internal/stringbuilder/builder.go |
| colorer.dfy | `Colors`: internal/color/colorer.go |
| bruh_stack.dfy | `BruhStack`: pkg/bruh/stack.go |
| bruh_error.dfy | `BruhError`: pkg/bruh/error.go |
| bruh_traceable.dfy | `Traceable`: pkg/bruh/traceable_error.go |
| bruh_format.dfy | `BruhFormat`: pkg/bruh/format.go |
| bruh_unpacker.dfy | `Unpacker`: pkg/bruh/unpacker.go |
| bruh_sourcelines.dfy | `SourceLines`: the pure parts of `getSourceLinesFromFile` in pkg/bruh/unpacker.go |
| bruh_trace.dfy | `BruhTrace`: pkg/bruh/format_bruh_trace.go |
| bruh_java.dfy | `JavaTrace`: pkg/bruh/format_java_stacktrace.go |
| bruh_gopanic.dfy | `GoPanic`: pkg/bruh/format_go_panic.go |
| bruh_python.dfy | `PythonTrace`: pkg/bruh/format_python_traceback.go |
| errors_stack.dfy | `ErrorsStack`: pkg/errors/stack.go |
| errors_error.dfy | `Errors`: pkg/errors/error.go |
| errors_format.dfy | `ErrorsFormat`: pkg/errors/format.go |
| context_maps.dfy | `ContextMaps`: the context maps shared by the three context errors |
| bruh_contextable.dfy | `BruhContextable`: pkg/bruh/contextable_error.go |
| bruh_ctxerror.dfy | `BruhCtxError`: pkg/bruh/ctxerror/contextable_error.go |
| ctxerror.dfy | `CtxError`: pkg/ctxerror/context_error.go |
| multierror.dfy | `MultiError`: pkg/multierror/multi_error.go |

## Model

| member | source | states |
|---|---|---|
| Util.DigitsInNumber | internal/util/util.go:5-31 | the digit count is always between 1 and 10 |
| Util.DigitsInNumberIsDecimalWidth | internal/util/util.go:5-31 | below 10^9 in magnitude, the count is the length of the number's decimal rendering |
| Util.DigitsInNumberSaturates | internal/util/util.go:26-29 | from 10^9 on in magnitude the count stays at 10 |
| Util.DigitsInNumberSymmetric | internal/util/util.go:6-8 | a negative number counts like its magnitude |
| Util.DigitsInNumberMonotone | internal/util/util.go:9-30 | a larger magnitude never has fewer digits |
| Util.Negate64 | internal/util/util.go:7 | Go's 64-bit negation: the result plus the argument is 0 modulo 2^64, the result equals the argument exactly for 0 and the minimum integer, and any value but the minimum negates to its negative |
| Util.DigitBucket | internal/util/util.go:9-30 | the `switch` always answers between 1 and 10 |
| Util.DigitsInNumberAsWritten | internal/util/util.go:5-31 | the code with 64-bit negation, between 1 and 10, agrees with `DigitsInNumber` on every input except the minimum integer |
| Util.DigitsOfMinInt64AsWritten | internal/util/util.go:6-11 | as written, -2^63 is reported as a one-digit number, where the intended count is 10 |
| StringBuilder.StringBuilder.constructor | internal/stringbuilder/builder.go:18-20 | the builder starts over the given bytes and capacity |
| StringBuilder.StringBuilder.Len | internal/stringbuilder/builder.go:32-35 | the number of bytes `String()` returns |
| StringBuilder.StringBuilder.String | internal/stringbuilder/builder.go:37-40 | the accumulated bytes, the whole buffer |
| StringBuilder.StringBuilder.Grow | internal/stringbuilder/builder.go:24-30 | the bytes are unchanged and at least `n` more fit; the capacity grows by exactly `n` only when the free room was short |
| StringBuilder.StringBuilder.Append | internal/stringbuilder/builder.go:50 | the bytes are the old bytes followed by the appended ones; the capacity is kept when they fit |
| StringBuilder.StringBuilder.Write | internal/stringbuilder/builder.go:49-52 | appends `p` and reports `len(p)` and no error |
| StringBuilder.StringBuilder.WriteByte | internal/stringbuilder/builder.go:56-59 | appends exactly the one byte |
| StringBuilder.StringBuilder.WriteString | internal/stringbuilder/builder.go:63-66 | appends `s` and reports its length |
| StringBuilder.StringBuilder.WriteInt | internal/stringbuilder/builder.go:69-71 | appends the base-10 rendering of the value |
| StringBuilder.StringBuilder.WriteIntAsHex | internal/stringbuilder/builder.go:75-77 | appends the lower-case base-16 rendering, with a sign when negative |
| Colors.NamedCodes | internal/color/colorer.go:14-35 | the named codes the formatters use are well-formed SGR sequences (ESC, '[', digits and ';', 'm') |
| Colors.Clamp | internal/color/colorer.go:88-90 | a component is clamped into 0..255 and kept when already inside |
| Colors.RGBCodeIsCode | internal/color/colorer.go:86-115 | whatever the components, the colour sequence written is one well-formed SGR sequence |
| Colors.Colorer.constructor | internal/color/colorer.go:62-67 | the colourer writes into the given builder and keeps the enabled flag |
| Colors.Colorer.Reset | internal/color/colorer.go:70-74 | appends the reset code when enabled and nothing otherwise |
| Colors.Colorer.Color | internal/color/colorer.go:77-83 | appends the codes in order when enabled and nothing otherwise |
| Colors.Colorer.ColorRGB | internal/color/colorer.go:86-99 | appends `ESC[38;2;r;g;bm` with clamped components when enabled, nothing otherwise |
| Colors.Colorer.BGColorRGB | internal/color/colorer.go:102-115 | appends `ESC[48;2;r;g;bm` with clamped components when enabled, nothing otherwise |
| Colors.Colorer.WriteRGB | internal/color/colorer.go:87-98 | the shared body of both RGB writers, for either layer |
| Colors.Colorer.WriteComponents | internal/color/colorer.go:92-96 | the three components in decimal, separated by ';' |
| Colors.Colorer.ColoredText | internal/color/colorer.go:118-126 | appends the text alone when disabled, or the codes, the text and the reset code when enabled |
| Colors.Colorer.ColoredInt | internal/color/colorer.go:129-137 | the same for the decimal rendering of an integer |
| Colors.PaintedReadsAsText | internal/color/colorer.go:118-126 | with every escape sequence removed, coloured text reads as the uncoloured text, enabled or not |
| Colors.StripCodes | internal/color/colorer.go:79-81 | removing escapes from a run of well-formed codes leaves nothing of them |
| Colors.StripPlain | internal/color/colorer.go:120 | text without ESC is left as it is when escapes are removed |
| Colors.ReadsAsPainted | internal/color/colorer.go:118-126 | coloured text shows as its text, whatever follows it |
| Colors.ReadsAsConcat | internal/color/colorer.go:118-137 | what a sequence of writes shows is what each write shows, one after another |
| Colors.Shows | internal/color/colorer.go:118-137 | a text that reads as `plain` is `plain` once its escapes are removed |
| Colors.ReadsAsDecimal | internal/color/colorer.go:129-137 | a decimal rendering contains no ESC and shows as itself |
| Colors.ExpandTabsKeepsEscapesOut | internal/color/colorer.go:118-126 | replacing tabs by spaces never introduces an ESC |
| Chain.Unwrap | pkg/bruh/error.go:162-167 | nil for nil; for a node, the chain below it, one node shorter |
| Chain.Depth | pkg/bruh/unpacker.go:37-40 | the number of nodes `Unwrap` reaches: zero exactly for nil |
| Chain.Nodes | pkg/bruh/error.go:162-167 | the nodes of a chain, outermost first: one per level, starting with the error itself |
| Chain.Root | pkg/bruh/error.go:172-180 | the node the walk ends at unwraps to nothing and is the last node of the chain |
| Chain.Cause | pkg/bruh/error.go:172-180 | nil stays nil; otherwise the result is the chain's last node, which is the error itself when nothing is wrapped (also pkg/bruh/traceable_error.go:213-221 and pkg/errors/error.go:212-220) |
| Chain.Foreign | pkg/bruh/unpacker.go:127-145 | a foreign error has no `Message`, no `Callers()`, no `stackPC()`, no `Stack()`, no `FullStack()` and no context; it keeps its text and its link |
| BruhStack.SharedSuffixLen | pkg/bruh/stack.go:23-35 | the number of frames the backwards walk passes is at most the length of either stack |
| BruhStack.Relative | pkg/bruh/stack.go:22-38 | the relative stack is never longer than the receiver |
| BruhStack.SharedSuffixMatches | pkg/bruh/stack.go:30-34 | the frames the walk passes over are the same at the end of both stacks |
| BruhStack.SharedSuffixMaximal | pkg/bruh/stack.go:27-32 | the walk stops at a pair of differing frames unless one stack ran out |
| BruhStack.RelativeSplits | pkg/bruh/stack.go:22-38 | the result is a prefix of the receiver; the removed tail equals the same-length tail of `other`; the last kept frame differs from its aligned frame in `other` whenever both exist |
| BruhStack.SharedSuffixIsLongest | pkg/bruh/stack.go:26-35 | every common suffix is removed: the dropped part is the longest common suffix |
| BruhStack.RelativeExtremes | pkg/bruh/stack.go:22-38 | a stack relative to itself is empty, and relative to an empty stack it is kept whole |
| BruhStack.RelativeTo | pkg/bruh/stack.go:22-38 | the index loop computes exactly the stack without the longest common suffix (the same body as `stackPC.relativeTo`, pkg/bruh/stack.go:82-98) |
| BruhStack.RelativeKeepOne | pkg/bruh/stack_test.go:397-411 | the test's rule: a non-empty stack keeps at least one frame, the result is a prefix, and it agrees with the code whenever the code keeps something |
| BruhStack.IdenticalStacks | pkg/bruh/stack_test.go:397-411 | on the test's identical stacks the code keeps nothing while the test expects the first frame |
| BruhStack.SimilarStacks | pkg/bruh/stack_test.go:412-432 | {111,222,333,444,555} relative to {888,999,333,444,555} is {111,222} |
| BruhStack.Combine | pkg/bruh/traceable_error.go:152-157 | the fold over the layers ends with the outermost layer's own stack |
| BruhStack.CombineLength | pkg/bruh/traceable_error.go:152-157 | the combined stack is no longer than all the layers together |
| BruhStack.CombineExtends | pkg/bruh/traceable_error.go:152-157 | an outer layer whose tail is the inner combination replaces it: nothing is duplicated |
| BruhStack.SharedSuffixIsWhole | pkg/bruh/stack.go:26-35 | a stack shares all of itself with any stack that ends with it |
| BruhStack.First | pkg/bruh/stack.go:41-46 | the whole stack when it has at most `x` frames, otherwise its first `x` frames |
| BruhStack.Last | pkg/bruh/stack.go:49-54 | the whole stack when it has at most `x` frames, otherwise its last `x` frames |
| BruhStack.RuntimeCallers | pkg/bruh/stack.go:73 | `runtime.Callers` fills at most the buffer, with the stack after the skipped frames, and nothing when all are skipped |
| BruhStack.Callers | pkg/bruh/stack.go:71-76 | at most 32 program counters, an in-order run of the stack after the skipped frames, all of it when it fits |
| BruhStack.FrameOf | pkg/bruh/stack.go:118-128 | a frame carries the resolved name, file and line and the original, undecremented program counter |
| BruhStack.Scan | pkg/bruh/stack.go:105-133 | the scan never keeps more frames than there are program counters |
| BruhStack.FramesAreResolvedPrefix | pkg/bruh/stack.go:101-135 | the frames resolve an in-order prefix of the counters, frame i carrying counter i; none is a runtime frame; the scan stops only at a runtime frame, at the end, or at a package initialiser |
| BruhStack.InitDiscardsStack | pkg/bruh/stack.go:110-113 | meeting `runtime.doInit` before any runtime frame gives an empty stack |
| BruhStack.ToStack | pkg/bruh/stack.go:101-135 | the loop over `CallersFrames` computes exactly the frames of the scan, empty for empty input |
| BruhStack.FrameTexts | pkg/bruh/stack.go:13-17 | one text per frame, in order |
| BruhStack.StackString | pkg/bruh/stack.go:12-19 | the frame texts joined by newlines |
| BruhStack.StackStringSnoc | pkg/bruh/stack.go:18 | one more frame adds exactly a newline and its text |
| BruhError.NewSkip | pkg/bruh/error.go:18-24 | the node keeps `msg` as its message, has no cause, and stores at most 32 counters for `Callers()`, taken in order from the stack after `2 + max(skip, 0)` frames; it has a pkg/bruh `Stack()` but no `stackPC()` and no `FullStack()` |
| BruhError.New | pkg/bruh/error.go:11-13 | a node with the given message and no cause |
| BruhError.WrapSkip | pkg/bruh/error.go:50-59 | nil exactly for a nil cause; otherwise the node has the message, unwraps to the cause, stores at most 32 counters for `Callers()` and has no `stackPC()` |
| BruhError.Wrap | pkg/bruh/error.go:40-45 | nil exactly for a nil cause; otherwise a node with the message that unwraps to the cause |
| BruhError.NegativeSkipIsZero | pkg/bruh/error.go:22 | a negative skip behaves exactly like zero, for `NewSkip` and `WrapSkip` (pkg/bruh/error.go:57) |
| BruhError.NewSkipsItsOwnFrame | pkg/bruh/error.go:11-13 | `New` records what `NewSkip(0)` records from its caller's frame: the extra skip passes over `New` itself |
| BruhError.WrapKeepsCause | pkg/bruh/error.go:172-180 | wrapping never changes the root cause |
| Traceable.NewSkip | pkg/bruh/traceable_error.go:18-34 | a node with the message as its text and no cause, with pkg/bruh `stackPC()`, `Stack()` and `FullStack()` but no `Callers()`; it stores no stack when `callers(3 + skip)` is classified global, and exactly that stack otherwise |
| Traceable.New | pkg/bruh/traceable_error.go:12-14 | a node with the message as its text and no cause |
| Traceable.WrapSkip | pkg/bruh/traceable_error.go:56-74 | a node whose text is the message and which unwraps to the given error, with the same methods and the same stack rule as `NewSkip` |
| Traceable.Wrap | pkg/bruh/traceable_error.go:49-51 | a node whose text is the message and which unwraps to the given error, nil included |
| Traceable.WrapNil | pkg/bruh/traceable_error.go:49-51 | `Wrap(nil, msg)` is a one-node chain whose `Error()` is `msg` and which is its own cause |
| Traceable.TypeName | pkg/bruh/traceable_error.go:224-228 | at most one leading "*" is removed from the dynamic type name |
| Traceable.TypeNameOfTraceable | pkg/bruh/traceable_error.go:169-171 | the traceable error's own type name is `bruh.TraceableError` |
| Chain.StackPCLayers | pkg/bruh/traceable_error.go:140-150 | the stacks of the leading nodes that have the given package's `stackPC()`, in chain order, stopping exactly at the first node without it |
| Traceable.Layers | pkg/bruh/traceable_error.go:138-150 | the collected layers start with the error's own stack |
| Traceable.FullStackShape | pkg/bruh/traceable_error.go:152-157 | the combined counters end with the error's own stack, and there are no more of them than in all collected layers |
| Traceable.FullStackOfSingleLayer | pkg/bruh/traceable_error.go:140-159 | when the cause has no pkg/bruh `stackPC()`, the full stack is just the error's own stack |
| Traceable.BruhErrCauseEndsFullStack | pkg/bruh/traceable_error.go:145-148 | a `*bruh.Err` cause has no `stackPC()`, so the layers of a traceable node wrapping it are its own stack alone |
| Traceable.CollectLayers | pkg/bruh/traceable_error.go:135-150 | the collecting loop gathers exactly the error and each following node with pkg/bruh `stackPC()`, stopping at the first without |
| Traceable.CombineLayers | pkg/bruh/traceable_error.go:152-157 | the folding loop, from the innermost layer outwards, puts each layer's stack relative to the combined one in front of it |
| Traceable.FullStack | pkg/bruh/traceable_error.go:134-160 | the collect-and-fold loops compute the combined stack of the layers, resolved |
| Traceable.StackPC | pkg/bruh/traceable_error.go:174-178 | a fresh array equal to the stored stack |
| Traceable.WriteIntoCopy | pkg/bruh/traceable_error.go:174-178 | writing into one copy leaves the error, and so a later copy, unchanged |
| Unpacker.StripInner | pkg/bruh/unpacker.go:103-110 | when the text ends with the next error's text, that text is cut off and then at most one trailing ": "; otherwise the text is kept whole |
| Unpacker.SkipForeign | pkg/bruh/unpacker.go:128-136 | the walk over foreign errors ends at nil or at the first node with `Callers()`, never further out |
| Unpacker.StackOf | pkg/bruh/unpacker.go:95-97 | a node's stack fits its 32-frame store |
| Unpacker.UnpackFrom | pkg/bruh/unpacker.go:90-151 | no more elements than nodes; a non-nil chain gives at least one element, the first holding the outermost error |
| Unpacker.PrevStackTail | pkg/bruh/unpacker.go:88-116 | the previous stack seen from index i is the one seen from the rest of the list after the first element is taken in |
| Unpacker.PartialStacksAreRelative | pkg/bruh/unpacker.go:88-149 | every callerser element's partial stack is its stack relative to the previous callerser element's stack (empty before the first); foreign elements carry empty stacks |
| Unpacker.UnpackAllKeepsEveryNode | pkg/bruh/unpacker.go:123-125 | with `unpackAll`, one element per node of the chain, in chain order |
| Unpacker.ForeignRunsArePooled | pkg/bruh/unpacker.go:126-137 | without `unpackAll`, no two foreign elements are neighbours |
| Unpacker.UnpackStep | pkg/bruh/unpacker.go:90-151 | what follows a node's element is the walk from the node after it, carrying the node's stack when it has `Callers()` |
| Unpacker.ElementsFollowWalk | pkg/bruh/unpacker.go:90-151 | the list is empty exactly for nil; each element is followed by the next node the walk reaches (one step in, and past a run of foreign nodes without `unpackAll`), and the last element has no such node |
| Unpacker.CallerserNodes | pkg/bruh/unpacker.go:94 | the nodes with `Callers()`, in chain order, no more than the nodes |
| Unpacker.SkipForeignKeepsCallersers | pkg/bruh/unpacker.go:128-136 | skipping a foreign run passes over no node with `Callers()` |
| Unpacker.EveryCallerserUnpacked | pkg/bruh/unpacker.go:90-151 | in either mode the elements with `Callers()` are exactly the chain's nodes with `Callers()`, in chain order |
| Unpacker.TraceableLayerIsForeign | pkg/bruh/unpacker.go:94 | a `*bruh.TraceableError` has no `Callers()`: its element has no stack, and it adds nothing to the collected layers |
| Unpacker.PooledCons | pkg/bruh/unpacker.go:126-137 | a foreign element followed by a callerser element keeps a pooled list pooled |
| Unpacker.Messages | pkg/bruh/unpacker.go:113 | one message per element, in order |
| Unpacker.UnpackWrappedExternalError | pkg/bruh/unpacker.go:123-145 | a foreign two-layer error under a wrap gives two messages, or three with `unpackAll`, each trimmed of the inner text |
| Unpacker.UnpackWrappedNil | pkg/bruh/unpacker.go:82-84 | wrapping nil twice unpacks to nothing |
| Unpacker.UnpackWrapped | pkg/bruh/unpacker.go:90-120 | two wraps of a `New` error give the three messages, outermost first |
| Unpacker.MessagePieces | pkg/bruh/unpacker.go:184-207 | no more pieces than nodes, none of them empty |
| Unpacker.MessagePiecesOfMessagers | pkg/bruh/unpacker.go:187-196 | over a chain whose nodes all have `Message()`, the pieces are the non-empty messages in chain order |
| Unpacker.Collected | pkg/bruh/unpacker.go:317-332 | no more layers than nodes, each with at least one counter |
| Unpacker.Step | pkg/bruh/unpacker.go:342-349 | the buffer never exceeds its 128 entries; after a cut nothing changes; a cut leaves the buffer full |
| Unpacker.FoldLayers | pkg/bruh/unpacker.go:338-350 | the fold stays within the buffer, and a cut leaves it full |
| Unpacker.TruncationIsFinal | pkg/bruh/unpacker.go:345-348 | once a layer is cut, the outer layers change nothing |
| Unpacker.FoldEndsWithOutermost | pkg/bruh/unpacker.go:341-350 | without a cut, the combined stack ends with the outermost layer's callers, whole |
| Unpacker.FoldWithoutCutIsCombine | pkg/bruh/unpacker.go:340-350 | without a cut, the bounded fold equals the unbounded combination of the layers |
| Unpacker.CombinedPCs | pkg/bruh/unpacker.go:333-352 | the combined program counters fit the 128-entry buffer |
| Unpacker.PartialsLength | pkg/bruh/unpacker.go:407-415 | the concatenated partial stacks have as many frames as the first loop counts |
| Unpacker.EndsWithOutermostStack | pkg/bruh/unpacker.go:412-415 | when the outermost node has callers, the combined partial stacks end with its whole stack |
| Unpacker.CountChain | pkg/bruh/unpacker.go:37-40 | the loop counts exactly the chain's nodes |
| Unpacker.AppendInto | pkg/bruh/unpacker.go:340-349 | appending into spare capacity keeps the prefix and adds the first `count` source entries |
| Unpacker.CollectCallers | pkg/bruh/unpacker.go:317-332 | the collecting loop gathers exactly the collected layers |
| Unpacker.StepInto | pkg/bruh/unpacker.go:342-349 | one in-place round computes exactly one fold step |
| Unpacker.FoldInto | pkg/bruh/unpacker.go:340-350 | the folding loop computes the fold of the layers |
| Unpacker.CombinedStackOf | pkg/bruh/unpacker.go:307-356 | `combinedStack` computes the resolved fold of the collected layers, empty when none is collected |
| Unpacker.CombinedStackOfElements | pkg/bruh/unpacker.go:403-416 | the partial stacks appended innermost element first, as many frames as they hold together |
| Unpacker.CountPartialFrames | pkg/bruh/unpacker.go:407-410 | the counting loop sums the partial-stack lengths |
| Unpacker.CutInner | pkg/bruh/unpacker.go:103-110 | the trimming code computes the stripped message |
| Unpacker.SkipToCallerser | pkg/bruh/unpacker.go:128-136 | the inner loop stops at the same node as the foreign skip, starting after the current node |
| Unpacker.ElementOf | pkg/bruh/unpacker.go:94-150 | one loop round emits the first element of the walk and moves strictly inwards to where the rest of the walk starts |
| Unpacker.UnpackChain | pkg/bruh/unpacker.go:86-157 | filling one pooled slot per element and trimming yields exactly the unpacked list |
| Unpacker.WriteJoined | pkg/bruh/unpacker.go:198-202 | the separator is written only after an earlier message, so the buffer holds the messages joined by ": " |
| Unpacker.Unpacker.constructor | pkg/bruh/unpacker.go:36-48 | the unpacker holds the error, the mode and the node count, with nothing cached |
| Unpacker.Unpacker.ChainLen | pkg/bruh/unpacker.go:73-75 | the number of nodes `Unwrap` reaches |
| Unpacker.Unpacker.Unpack | pkg/bruh/unpacker.go:78-161 | returns the unpacked list, at most `chainLen` long, from the cache when present; caches it for non-nil errors and changes nothing else |
| Unpacker.Unpacker.AppendMessageBuilder | pkg/bruh/unpacker.go:182-208 | appends the chain's non-empty messages joined by ": " to what the builder held |
| Unpacker.Unpacker.CombinedStack | pkg/bruh/unpacker.go:211-224 | returns the combined stack, from the cache when present; caches it for non-nil errors and changes nothing else |
| Unpacker.ReallocCapacity | pkg/bruh/unpacker.go:287 | `((size/10)+1)*10`: the next multiple of ten strictly above the size |
| Unpacker.NewSlots | pkg/bruh/unpacker.go:387-394 | a fresh slice with more slots than requested |
| Unpacker.SliceHeader.constructor | pkg/bruh/unpacker.go:380-384 | a pool's new slice is empty and has no capacity |
| Unpacker.SliceHeader.NewUnpackedError | pkg/bruh/unpacker.go:387-394 | a too small slice is replaced by one at full length with the rounded-up capacity; otherwise nothing changes; the capacity is at least the size |
| Unpacker.SliceHeader.DisposeUnpackedError | pkg/bruh/unpacker.go:397-400 | the length is restored to the capacity |
| Unpacker.SliceHeader.NewCallerserErrors | pkg/bruh/unpacker.go:284-291 | a too small slice is replaced by an empty one with the rounded-up capacity; otherwise nothing changes; the capacity is at least the size |
| Unpacker.SliceHeader.DisposeCallerserErrors | pkg/bruh/unpacker.go:294-297 | the length is reset to zero, the capacity kept |
| SourceLines.Clamp | pkg/bruh/unpacker.go:449-450 | `max(0, x)`: the least natural number not below `x` |
| SourceLines.Group | pkg/bruh/unpacker.go:462-482 | `2*ctxLines+1` slots for the i-th requested line, slot k holding line `l - ctxLines + k`, only the middle one marked as the line itself |
| SourceLines.LineIndexShape | pkg/bruh/unpacker.go:453-483 | the index has `2*ctxLines+1` entries per requested line; each points into its line's group at the matching offset, and exactly the middle one is the line itself |
| SourceLines.BuildLineIndex | pkg/bruh/unpacker.go:461-483 | the three appending loops build exactly the index |
| SourceLines.LeadingTabs | pkg/bruh/unpacker.go:558-564 | the count is the length of the run of tabs at the start of the line |
| SourceLines.LeadingTabsAfterCut | pkg/bruh/unpacker.go:575 | cutting off m leading tabs leaves the other tabs at the start |
| SourceLines.MinTabs | pkg/bruh/unpacker.go:552-568 | at most each counting line's tab count and equal to one of them, or `MaxInt64` when no line counts |
| SourceLines.UnindentRemovesCommonTabs | pkg/bruh/unpacker.go:549-577 | every counting line loses exactly the common tabs, and at least one of them is left with none |
| SourceLines.Row | pkg/bruh/unpacker.go:553 | the row holds the group's slots in order |
| SourceLines.CountLeadingTabs | pkg/bruh/unpacker.go:558-564 | the character loop counts the leading tabs |
| SourceLines.MinTabsOfRow | pkg/bruh/unpacker.go:552-568 | the counting loop finds the least tab count of the group |
| SourceLines.StripRow | pkg/bruh/unpacker.go:570-576 | only this group changes, each counting line losing the common tabs |
| SourceLines.Unindent | pkg/bruh/unpacker.go:549-578 | every group, in place, loses the common tabs of its own counting lines |
| SourceLines.CapLine | pkg/bruh/unpacker.go:584-586 | a positive cap keeps a prefix of at most `colCap` bytes; a short line or a zero cap keeps the line whole |
| SourceLines.CapColumns | pkg/bruh/unpacker.go:581-589 | every slot, in place, is capped |
| SourceLines.PrepareSourceLines | pkg/bruh/unpacker.go:449-483 | a fresh matrix of empty slots, one row of `2*max(0,ctxLines)+1` per requested line, and the index for the clamped context |
| SourceLines.FinishSourceLines | pkg/bruh/unpacker.go:548-589 | every slot ends unindented when asked, then capped at the clamped `colCap` |
| BruhFormat.UnpackFrom | pkg/bruh/format.go:235-269 | no more elements than nodes, none exactly for nil, the first holding the outermost error |
| BruhFormat.Unpack | pkg/bruh/format.go:235-269 | the appending loop computes exactly the unpacked list |
| BruhFormat.ElementsFollowChain | pkg/bruh/format.go:239-265 | element i describes node i (a base node by its message and `Stack()`, any other by its `Error()` text and no stack); with `unwrapExternal` every node gets one; without it, `ForeignEndsTheWalk` states where the list ends |
| BruhFormat.ForeignEndsTheWalk | pkg/bruh/format.go:254-262 | without `unwrapExternal` an element without a stack can only be the last one; every element before the last is a base node, and the list stops short of the chain only after a node that is not |
| BruhFormat.PartialStacksAreRelative | pkg/bruh/format.go:237-252 | every element with a stack carries its partial stack relative to the previous element's stack, the first relative to the empty stack |
| BruhFormat.PrevStackShift | pkg/bruh/format.go:252 | the previous stack seen from index i is the one seen from the rest after the first element is taken in |
| BruhFormat.PartialsFrom | pkg/bruh/format.go:239-266 | the relative-stack property holds from any starting stack |
| BruhFormat.UnpackStopsAtForeign | pkg/bruh/format.go:254-262 | a foreign wrapper over a base error unpacks to its own element alone |
| BruhFormat.UnpackPastForeign | pkg/bruh/format.go:254-265 | with `unwrapExternal` the walk goes on to the base error, whose partial stack is its whole stack |
| BruhFormat.Sep | pkg/bruh/format.go:74-83 | nothing for an empty message, else ": " followed by the message |
| BruhFormat.Tail | pkg/bruh/format.go:70-87 | nothing after a nil chain |
| BruhFormat.ChainText | pkg/bruh/format.go:60-89 | the root's `Error()` when it has no `Message()`, else text starting with its message |
| BruhFormat.FormatWithoutTraceOf | pkg/bruh/format.go:60-89 | the loop computes exactly the chain text |
| BruhFormat.TailIsJoin | pkg/bruh/format.go:70-87 | after a non-empty message, the tail is the remaining message pieces joined by ": " |
| BruhFormat.ChainTextIsMessagePieces | pkg/bruh/format.go:60-89 | with a non-empty root text and no empty foreign text, `formatWithoutTrace` gives what `AppendMessageBuilder` (pkg/bruh/unpacker.go:182-208) writes |
| BruhFormat.EmptyRootMessageLeadsWithSeparator | pkg/bruh/format.go:64-76 | the two joiners differ on an empty root message: here the text starts with ": " |
| BruhFormat.EmptyWrappedForeign | pkg/bruh/format.go:79-84 | an empty foreign text under a wrap adds nothing, not even a separator |
| BruhFormat.Msgs | pkg/bruh/format.go:46-50 | one message per element, in order |
| BruhFormat.FormatWithoutTrace | pkg/bruh/format.go:44-52 | every message, empty ones included, joined by ": " |
| BruhFormat.Locations | pkg/bruh/format.go:129-139 | one location line per frame |
| BruhFormat.AppendFrames | pkg/bruh/format.go:129-139 | the frame loop appends the frame lines separated by newlines, none after the last |
| BruhFormat.Quoted | pkg/bruh/format.go:120-124 | never empty: an empty message prints as `""`, any other as itself |
| BruhFormat.Pieces | pkg/bruh/format.go:119-143 | one piece per element, the last one marked |
| BruhFormat.FormatWithTrace | pkg/bruh/format.go:108-145 | the element loop writes exactly the trace text |
| BruhFormat.Blocks | pkg/bruh/format.go:119-139 | one block per element, in order |
| BruhFormat.TraceOfStackedElements | pkg/bruh/format.go:119-143 | when every element has a stack, the trace is their blocks separated by single newlines, none after the last |
| BruhFormat.CombinedHeader | pkg/bruh/format.go:158-166 | never empty: `""` for a single element with an empty message, otherwise all messages joined by ": " |
| BruhFormat.FormatWithCombinedTrace | pkg/bruh/format.go:156-184 | the loops write exactly the header and, when the first error has a pkg/bruh `FullStack()`, a newline and its frames |
| BruhFormat.CombinedTraceWithoutFullStack | pkg/bruh/format.go:167-182 | without `FullStack()` the combined trace is just the joined messages |
| BruhFormat.PyFrames | pkg/bruh/format.go:210-219 | an empty partial stack writes no frame line |
| BruhFormat.PyHeader | pkg/bruh/format.go:208-220 | a nil partial stack writes nothing, any other starts with the traceback heading |
| BruhFormat.PyMessage | pkg/bruh/format.go:222-225 | the message part is empty exactly for an empty message |
| BruhFormat.PyPieces | pkg/bruh/format.go:206-230 | one piece per element |
| BruhFormat.AppendPyFrames | pkg/bruh/format.go:210-219 | the reverse frame loop appends the frames last first |
| BruhFormat.FormatPythonTraceback | pkg/bruh/format.go:204-232 | the reverse element loop writes exactly the traceback text |
| BruhFormat.AppendPyPiece | pkg/bruh/format.go:207-229 | one round writes the element's block and, unless it is the outermost, the cause paragraph |
| BruhFormat.AppendPyBlock | pkg/bruh/format.go:208-225 | header and frames, type name, then the message |
| BruhFormat.InnermostFirst | pkg/bruh/format.go:206 | one block per element |
| BruhFormat.PythonTextIsJoin | pkg/bruh/format.go:204-232 | the traceback is the blocks innermost first with the "direct cause" paragraph between neighbours and never after the last |
| BruhFormat.ToCustomString | pkg/bruh/format.go:18-32 | "" for nil; the direct join without a formatter; otherwise the formatter applied to the chain unpacked without unwrapping foreign errors |
| BruhFormat.ToString | pkg/bruh/format.go:10-15 | "" for nil; with a trace the trace text of the unpacked chain, else the direct join |
| BruhTrace.Shown | pkg/bruh/format_bruh_trace.go:190-193 | never empty: the message itself, or `<no message>` exactly when it is empty |
| BruhTrace.MaxLineNum | pkg/bruh/format_bruh_trace.go:302-308 | at least each of the five slot line numbers and equal to one of them |
| BruhTrace.SourceOf | pkg/bruh/format_bruh_trace.go:207-208 | element i gets source lines exactly when they were fetched, one group of five or more per partial-stack frame |
| BruhTrace.WriteLocation | pkg/bruh/format_bruh_trace.go:213-218 | appends `name (file:line)` with name and file coloured |
| BruhTrace.WriteAtLines | pkg/bruh/format_bruh_trace.go:211-219 | the frame loop appends one `\n    at name (file:line)` per frame |
| BruhTrace.WritePadding | pkg/bruh/format_bruh_trace.go:319-321 | appends n spaces, none when n is not positive |
| BruhTrace.WriteSlot | pkg/bruh/format_bruh_trace.go:310-336 | appends the slot text: nothing for a negative line number, else marker, padded number, gutter and tab-expanded source |
| BruhTrace.FormatSingleStackWithSourceCode | pkg/bruh/format_bruh_trace.go:288-338 | appends the frame's location and its five slots aligned to the widest line number |
| BruhTrace.WriteSourcedFrames | pkg/bruh/format_bruh_trace.go:269-271 | appends each frame with its own source lines, in order |
| BruhTrace.WriteHeader | pkg/bruh/format_bruh_trace.go:190-202 | appends the shown message, after the type name when typed |
| BruhTrace.WriteStackedPiece | pkg/bruh/format_bruh_trace.go:190-223 | one round appends the element's header, its frames (sourced or plain) and a newline unless it is the last |
| BruhTrace.WriteStacked | pkg/bruh/format_bruh_trace.go:188-224 | the element loop appends the stacked text |
| BruhTrace.FormatBruhStacked | pkg/bruh/format_bruh_trace.go:161-226 | nil leaves the bytes unchanged; otherwise the bytes followed by the stacked text of the unpacked list, sourced only when asked and fetched without error |
| BruhTrace.WriteChainMessage | pkg/bruh/format_bruh_trace.go:254-264 | appends the joined chain message in bold red, `<no message>` when nothing was joined |
| BruhTrace.WriteCombinedFrames | pkg/bruh/format_bruh_trace.go:266-283 | nothing for an empty stack; otherwise a newline and the sourced frames, or the plain frame lines |
| BruhTrace.FormatBruhSourced | pkg/bruh/format_bruh_trace.go:228-286 | nil leaves the bytes unchanged; otherwise the bytes, the chain message as `AppendMessageBuilder` joins it and the combined stack |
| BruhTrace.PlainAtLines | pkg/bruh/format_bruh_trace.go:211-219 | without colour the frame list is the plain `at name (file:line)` lines |
| BruhTrace.PlainStackedLayout | pkg/bruh/format_bruh_trace.go:188-224 | uncoloured and unsourced, the stacked layout is each element's heading and frames, elements separated by one newline and none after the last |
| BruhTrace.SlotShownIffNotNegative | pkg/bruh/format_bruh_trace.go:311 | a slot prints exactly when its line number is not negative |
| BruhTrace.AlignedLineNumbers | pkg/bruh/format_bruh_trace.go:302-326 | padding and number of every printed slot take exactly the width of the frame's largest line number |
| BruhTrace.UnfilledSlotPrintsLineZero | pkg/bruh/format_bruh_trace.go:310-336 | a slot left at line 0 by the source reader still prints, as line 0 with no source |
| BruhTrace.ReadsAsPaintedOff | internal/color/colorer.go:118-126 | an escape-free painted text reads as its uncoloured form once escapes are removed |
| BruhTrace.LocationReads | pkg/bruh/format_bruh_trace.go:213-218 | a coloured location reads as the plain one |
| BruhTrace.AtLinesRead | pkg/bruh/format_bruh_trace.go:211-219 | a coloured frame list reads as the plain one |
| BruhTrace.MarkerReads | pkg/bruh/format_bruh_trace.go:312-318 | the coloured arrow reads as the plain one |
| BruhTrace.SlotReads | pkg/bruh/format_bruh_trace.go:310-336 | a coloured slot reads as the plain one |
| BruhTrace.SourcedFrameReads | pkg/bruh/format_bruh_trace.go:288-338 | a coloured sourced frame reads as the plain one |
| BruhTrace.SourcedFramesRead | pkg/bruh/format_bruh_trace.go:269-271 | the coloured sourced frames read as the plain ones |
| BruhTrace.HeaderReads | pkg/bruh/format_bruh_trace.go:190-202 | a coloured header reads as the plain one |
| BruhTrace.ElementFramesRead | pkg/bruh/format_bruh_trace.go:203-220 | an element's coloured frames read as the plain ones |
| BruhTrace.StackedPieceReads | pkg/bruh/format_bruh_trace.go:190-223 | a coloured element piece reads as the plain one |
| BruhTrace.StackedColourOnlyAddsEscapes | pkg/bruh/format_bruh_trace.go:161-226 | removing the escape sequences from the coloured stacked layout gives the uncoloured one |
| BruhTrace.SourcedColourOnlyAddsEscapes | pkg/bruh/format_bruh_trace.go:228-286 | removing the escape sequences from the coloured sourced layout gives the uncoloured one |
| BruhTrace.NoMessageExactlyWhenSilent | pkg/bruh/format_bruh_trace.go:255-263 | `<no message>` stands in exactly when the chain has no non-empty message |
| JavaTrace.Parts | pkg/bruh/format_java_stacktrace.go:39-59 | one written element per unpacked element |
| JavaTrace.WriteFrame | pkg/bruh/format_java_stacktrace.go:51-58 | appends one `\n    at name (file:line)` line |
| JavaTrace.WriteFrames | pkg/bruh/format_java_stacktrace.go:50-59 | the frame loop appends one such line per frame, in order |
| JavaTrace.WriteHeading | pkg/bruh/format_java_stacktrace.go:40-49 | appends `Caused by: ` for every element but the first, then `type: message`, `_` for an empty message |
| JavaTrace.WriteElement | pkg/bruh/format_java_stacktrace.go:40-62 | one round appends the element's heading and frames and a newline unless it is the last |
| JavaTrace.JavaStackTraceFormatter | pkg/bruh/format_java_stacktrace.go:24-65 | nil leaves the bytes unchanged; otherwise the bytes followed by the elements of the unpacked list separated by newlines |
| JavaTrace.Pieces | pkg/bruh/format_java_stacktrace.go:39-63 | one piece per element |
| JavaTrace.PiecesAreJoin | pkg/bruh/format_java_stacktrace.go:39-63 | the pieces laid end to end are the elements joined by one newline, none after the last |
| JavaTrace.WriteElements | pkg/bruh/format_java_stacktrace.go:39-63 | the element loop appends exactly the newline-joined elements |
| JavaTrace.CausesOfTypedBruhLayout | pkg/bruh/format_java_stacktrace.go:39-59 | with a non-empty message each element reads as in the plain typed stacked layout (pkg/bruh/format_bruh_trace.go:194-219), causes behind `Caused by: ` |
| GoPanic.PcAsInt64 | pkg/bruh/format_go_panic.go:47 | Go's `int64` conversion of a counter: congruent to it modulo 2^64, and negative exactly above `MaxInt64` |
| GoPanic.WriteFrame | pkg/bruh/format_go_panic.go:41-47 | appends `name()`, a newline and tab, `file:line +0x` and the counter in hex |
| GoPanic.Pieces | pkg/bruh/format_go_panic.go:40-51 | one piece per frame |
| GoPanic.PiecesAreJoin | pkg/bruh/format_go_panic.go:40-51 | the pieces laid end to end are the frames separated by one newline |
| GoPanic.WriteFrames | pkg/bruh/format_go_panic.go:40-51 | the frame loop appends exactly the newline-separated frames |
| GoPanic.GoPanicFormatter | pkg/bruh/format_go_panic.go:20-54 | nil leaves the bytes unchanged; otherwise the bytes, the joined messages, and for a non-empty stack a blank line (only after earlier output) and the frames |
| GoPanic.FramesFirstWithoutMessage | pkg/bruh/format_go_panic.go:36-39 | with nothing written before, no blank line: the output begins with the first frame |
| GoPanic.MessageThenFrames | pkg/bruh/format_go_panic.go:34-52 | a message and frames are separated by exactly one blank line |
| GoPanic.FramesLayout | pkg/bruh/format_go_panic.go:40-51 | the first frame leads, each further one follows a newline |
| PythonTrace.LineOf | pkg/bruh/format_python_traceback.go:101-104 | a frame has a source line exactly when source is included |
| PythonTrace.FileLineOnNewLine | pkg/bruh/format_python_traceback.go:95-100 | the pieces written for a frame are a newline and its `File` line |
| PythonTrace.Lines | pkg/bruh/format_python_traceback.go:93-105 | one line per partial-stack frame |
| PythonTrace.Heading | pkg/bruh/format_python_traceback.go:91-107 | empty exactly for an element without partial stack, otherwise starting with the traceback title |
| PythonTrace.Pieces | pkg/bruh/format_python_traceback.go:89-119 | one piece per element |
| PythonTrace.WriteFrameLine | pkg/bruh/format_python_traceback.go:95-104 | appends the frame's `File` line on a new line, then its indented source line when there is one |
| PythonTrace.WriteFrameOf | pkg/bruh/format_python_traceback.go:94-104 | appends frame j of element i with the first source line fetched for it |
| PythonTrace.WriteFrameLines | pkg/bruh/format_python_traceback.go:93-105 | the reverse frame loop appends the frames last first |
| PythonTrace.WriteBlock | pkg/bruh/format_python_traceback.go:90-112 | appends heading, type name and `: message` when the message is non-empty |
| PythonTrace.WritePiece | pkg/bruh/format_python_traceback.go:90-118 | appends the block and, unless it is the outermost element, the cause paragraph |
| PythonTrace.WriteBlocks | pkg/bruh/format_python_traceback.go:89-119 | the reverse element loop appends exactly the traceback text |
| PythonTrace.FormatPythonTraceback | pkg/bruh/format_python_traceback.go:59-121 | nil leaves the bytes unchanged; otherwise the bytes followed by the traceback of the unpacked list, with source lines only when asked and fetched without error |
| PythonTrace.PythonTracebackFormatter | pkg/bruh/format_python_traceback.go:25-27 | the traceback without source lines |
| PythonTrace.FormatPythonTracebackSourced | pkg/bruh/format_python_traceback.go:55-57 | the traceback with source lines when they could be fetched |
| PythonTrace.InnermostFirst | pkg/bruh/format_python_traceback.go:89 | one block per element |
| PythonTrace.PythonTextIsJoin | pkg/bruh/format_python_traceback.go:89-119 | the traceback is the blocks innermost first, the "direct cause" paragraph between neighbours and never after the last |
| PythonTrace.PlainLineSeq | pkg/bruh/format_python_traceback.go:93-100 | one line per frame |
| PythonTrace.PyFramesFirst | pkg/bruh/format.go:210-219 | the older formatter writes the first frame last |
| PythonTrace.PyFrameIsFileLine | pkg/bruh/format.go:212-218 | the older frame line is the same `File` line followed by a newline |
| PythonTrace.PlainFramesFirst | pkg/bruh/format_python_traceback.go:93-100 | the first frame is written last |
| PythonTrace.PlainFramesAgree | pkg/bruh/format_python_traceback.go:93-106 | both generations write the same frame lines, with the newline moved from the end to the front |
| PythonTrace.HeadingMatchesOlderFormatter | pkg/bruh/format_python_traceback.go:91-107 | without source, an element's heading is exactly what the older `FormatPythonTraceback` (pkg/bruh/format.go:208-220) writes for the same frames |
| PythonTrace.PlainLines | pkg/bruh/format_python_traceback.go:93-105 | without source, the frames of an element are its plain frame lines |
| ErrorsStack.RelativeStack | pkg/errors/stack.go:95-111 | the backward walk computes the stack relative to the previous one |
| ErrorsStack.RelativeStackSplits | pkg/errors/stack.go:95-111 | what is kept is a prefix of the next stack, what is dropped is also the end of the previous stack, and no more could be dropped |
| ErrorsStack.Formatted | pkg/errors/stack.go:52-54 | one formatted line per frame |
| ErrorsStack.Format | pkg/errors/stack.go:21-31 | with `invert` the lines keep the stack's order; without it they are reversed |
| ErrorsStack.FormattedSnoc | pkg/errors/stack.go:23-28 | one more frame appends its line, or prepends it in the reversed order |
| ErrorsStack.FormatOrders | pkg/errors/stack.go:21-31 | the two orders are each other's reverse: line i of one is line n-1-i of the other |
| ErrorsStack.Pc | pkg/errors/stack.go:60-62 | the stored value minus one, wrapping around like a `uintptr` |
| ErrorsStack.ShortName | pkg/errors/stack.go:70-71 | a suffix of the function name without "/", the whole name when it has none |
| ErrorsStack.ShortNameIsAfterLast | pkg/errors/stack.go:70-71 | the slice after `strings.LastIndex` is the text after the last "/" |
| ErrorsStack.Resolved | pkg/errors/stack.go:120-127 | the frame has the short name, file and line of the counter and the counter itself |
| ErrorsStack.Get | pkg/errors/stack.go:65-79 | the frame of the counter one before the stored one |
| ErrorsStack.StackFrames | pkg/errors/stack.go:114-134 | one resolved frame per counter, and a single zero frame for an empty stack |
| ErrorsStack.StackFramesSnoc | pkg/errors/stack.go:118-131 | each round appends what `Next` yields |
| ErrorsStack.GetStack | pkg/errors/stack.go:114-134 | the append-then-check loop computes exactly the frames |
| ErrorsStack.IsGlobal | pkg/errors/stack.go:137-145 | true exactly when some frame's lower-cased name is `runtime.doinit` |
| ErrorsStack.EmptyIsNotGlobal | pkg/errors/stack.go:137-145 | an empty stack is never global |
| ErrorsStack.LowerInit | pkg/errors/stack.go:140 | `runtime.doInit` lower-cases to `runtime.doinit` |
| ErrorsStack.ShortInit | pkg/errors/stack.go:70-71 | `runtime.doInit` keeps its whole name |
| ErrorsStack.InitMakesGlobal | pkg/errors/stack.go:137-145 | a counter resolving to `runtime.doInit` makes its stack global |
| ErrorsStack.Callers | pkg/errors/stack.go:84-90 | what `runtime.Callers` filled into the 64-entry buffer minus its last two entries |
| Errors.Node | pkg/errors/error.go:83-92 | `Error()` is the node's own message, it unwraps to its cause and has stack and full stack |
| Errors.NewSkip | pkg/errors/error.go:18-34 | a node with the message and no cause; no stack for a global `callers(3 + skip)`, exactly that stack otherwise |
| Errors.New | pkg/errors/error.go:12-14 | a node with the message and no cause |
| Errors.WrapSkip | pkg/errors/error.go:70-80 | nil exactly for a nil cause; otherwise a node with the message over the cause holding `callers(4 + skip)` |
| Errors.Wrap | pkg/errors/error.go:49-51 | nil exactly for a nil cause; otherwise a node with the message over the cause |
| Errors.WrapAddsOneNode | pkg/errors/error.go:70-80 | wrapping adds exactly one node on top; the rest of the chain and its root are kept |
| Errors.Accumulate | pkg/errors/error.go:143-157 | the collected stack always ends with what was collected before |
| Errors.FullPCs | pkg/errors/error.go:140-160 | the combined counters end with the node's own stack; the layers below are the nodes with a pkg/errors `stackPC()` |
| Errors.AccumulateLength | pkg/errors/error.go:154-156 | the combined stack is never longer than all stacks it was built from |
| Errors.FullStackOfSingleLayer | pkg/errors/error.go:143-152 | when the cause has no pkg/errors `stackPC()`, the full stack is the node's own |
| Errors.FullStack | pkg/errors/error.go:140-160 | the loop computes the combined counters, then converts them |
| ErrorsFormat.UnpackFrom | pkg/errors/format.go:135-172 | no more elements than nodes, none exactly for nil |
| ErrorsFormat.Unpack | pkg/errors/format.go:135-172 | the appending loop computes exactly the unpacked list |
| ErrorsFormat.ElementsFollowChain | pkg/errors/format.go:139-169 | element i holds node i, its `Error()` text and its type name; with `unwrapExternal` every node gets one element; without it every element before the last is a base node and the list stops short of the chain only after a node that is not |
| ErrorsFormat.PartialIsPrefix | pkg/errors/format.go:145-154 | a base element's stack is `Stack()`, and its partial stack is that stack with the end it shares with the previous base stack cut off |
| ErrorsFormat.FrameJson | pkg/errors/format.go:212-216 | a frame map has exactly the keys function, file, line and location, the location being `name:file:line` |
| ErrorsFormat.StackJson | pkg/errors/format.go:211-218 | one map per partial-stack frame |
| ErrorsFormat.ElementJson | pkg/errors/format.go:205-223 | the map holds the message always and the partial stack's frames only with a trace, and no other key |
| ErrorsFormat.FormatJson | pkg/errors/format.go:205-223 | the loop builds exactly that map |
| ErrorsFormat.JsonList | pkg/errors/format.go:126-129 | one map per element |
| ErrorsFormat.ToJson | pkg/errors/format.go:123-132 | one map per element of the chain unpacked with foreign layers, in order |
| ErrorsFormat.JsonCoversChain | pkg/errors/format.go:123-132 | every node of the chain gets one entry, carrying its `Error()` text |
| ErrorsFormat.Inc | pkg/errors/format.go:77-79 | the result exceeds its argument |
| ErrorsFormat.Dec | pkg/errors/format.go:80-82 | the intended `dec`: below its argument |
| ErrorsFormat.DecAsWritten | pkg/errors/format.go:80-82 | `dec` as written returns the same value as `inc` on every argument |
| ErrorsFormat.DecAsWrittenDoesNotUndoInc | pkg/errors/format.go:77-82 | the `dec` as written does not undo `inc`: `dec (inc 0)` is 2 |
| ErrorsFormat.DecUndoesInc | pkg/errors/format.go:77-82 | the intended `dec` and `inc` undo each other |
| ErrorsFormat.Reversed | pkg/errors/format.go:86-97 | nil for a value that is not a slice; otherwise a new list of the elements back to front |
| ErrorsFormat.ReverseCons | pkg/errors/format.go:93-95 | reversing a list with a head puts the head last |
| ErrorsFormat.LastIsOutermost | pkg/errors/format.go:67-73 | over the reversed elements `last` holds at exactly one index, the one holding the outermost element |
| ErrorsFormat.Last | pkg/errors/format.go:83-85 | `last i n` holds exactly when `i` is the final index, `i + 1 == n` |
| ContextMaps.Contexts | pkg/bruh/contextable_error.go:164-168 | one context per node, in chain order, empty for a node without `Context()` |
| ContextMaps.Lookup | pkg/ctxerror/context_error.go:152-159 | a key is found exactly when some context holds it |
| ContextMaps.MergedIsOutermost | pkg/bruh/contextable_error.go:159-173 | the inner-to-outer merge holds exactly the keys some node holds, each with the outermost node's value |
| ContextMaps.MergedPeel | pkg/bruh/contextable_error.go:163-168 | the merge of a chain is the merge of its cause with the node's own entries stored over it |
| ContextMaps.Added | pkg/bruh/contextable_error.go:113-120 | a nil value removes the key, any other sets it; no other key changes |
| ContextMaps.AddedAll | pkg/bruh/contextable_error.go:123-128 | every key of the given map is decided by its value there, every other key is kept |
| ContextMaps.AddedAllStep | pkg/bruh/contextable_error.go:124-126 | `AddAll` is `Add` applied per entry, in any order |
| ContextMaps.MergeStep | pkg/bruh/contextable_error.go:165-167 | storing one more entry of the node's context is one more map store |
| ContextMaps.StoredAll | pkg/bruh/contextable_error.go:165-167 | once every entry is stored, the node's context overrides the accumulated one |
| ContextMaps.StoreAll | pkg/bruh/contextable_error.go:165-167 | the storing loop puts the node's entries over the accumulated map |
| ContextMaps.PlainLayerPassesThrough | pkg/bruh/contextable_error.go:159-173 | a layer without context adds nothing: the full context is its cause's |
| ContextMaps.FullContext | pkg/bruh/contextable_error.go:159-173 | an empty map for nil; nil exactly when the merged chain context is empty; the merged context otherwise |
| ContextMaps.FullContextAsWritten | pkg/bruh/contextable_error.go:159-173 | the code as written, with the write into the nil map an inner call can return: an empty map for nil, and for a non-nil chain it never returns an empty non-nil map (`AsWrittenAgreesUnlessPanic` ties the values it returns to `FullContext`) |
| ContextMaps.AsWrittenAgreesUnlessPanic | pkg/bruh/contextable_error.go:159-173 | wherever the code as written does not panic, it returns the corrected result |
| ContextMaps.ContextOverPlainErrorPanics | pkg/bruh/contextable_error.go:163-167 | a node with entries over a plain error makes the written code panic, where the corrected one returns the node's entries |
| ContextMaps.KeyOf | pkg/ctxerror/context_error.go:99-103 | a string key is stored under itself, any other under its printed text |
| ContextMaps.AddedPairsSnoc | pkg/ctxerror/context_error.go:96-106 | one more pair overwrites its key, so a later pair wins over an earlier one |
| ContextMaps.AddedPairsDropsTrailingKey | pkg/ctxerror/context_error.go:97 | a trailing key without a value changes nothing |
| ContextMaps.AddedPairsKeepsOthers | pkg/ctxerror/context_error.go:96-106 | a key no pair names keeps its entry, or stays absent |
| ContextMaps.Removed | pkg/ctxerror/context_error.go:117-122 | exactly the listed keys are gone, the other entries are kept |
| ContextMaps.RemovedSnoc | pkg/ctxerror/context_error.go:118-120 | each round deletes one more key |
| ContextMaps.KeepStep | pkg/ctxerror/context_error.go:154-158 | keeping one more entry stores it only when the key is new |
| ContextMaps.KeptAll | pkg/ctxerror/context_error.go:154-158 | once every entry is considered, the entries already collected win |
| ContextMaps.KeepAll | pkg/ctxerror/context_error.go:154-158 | the keeping loop adds to the accumulated map only the keys it lacks |
| ContextMaps.HandOver | pkg/ctxerror/context_error.go:186-192 | handing over one more new key keeps the keys distinct and the pairs agreeing with the context seen |
| ContextMaps.AgreesWider | pkg/ctxerror/context_error.go:183-195 | pairs that agree with part of a context agree with the whole |
| ContextMaps.KeptWithin | pkg/ctxerror/context_error.go:154-158 | what is kept of a node's entries is part of the merge in which outer entries win |
| ContextMaps.AgreesUnder | pkg/ctxerror/context_error.go:183-195 | pairs that agree with the outer entries agree with the merge in which those have the last word |
| BruhContextable.ContextableError.constructor | pkg/bruh/contextable_error.go:28-33 | the node and an empty context |
| BruhContextable.ContextableError.AsError | pkg/bruh/contextable_error.go:133-135 | as an error in a chain, the node exposes its own context |
| BruhContextable.ContextableError.Add | pkg/bruh/contextable_error.go:113-120 | the context after `Add`: removed for a nil value, set otherwise, nothing else changed |
| BruhContextable.ContextableError.AddAll | pkg/bruh/contextable_error.go:123-128 | the context after adding every entry of the given map |
| BruhContextable.ContextableError.FullContext | pkg/bruh/contextable_error.go:138-140 | the full context of the chain from this node |
| BruhContextable.CENewSkip | pkg/bruh/contextable_error.go:37-42 | a fresh error over `NewSkip(skip+1, msg)` with an empty context |
| BruhContextable.CENew | pkg/bruh/contextable_error.go:28-33 | a fresh error over `NewSkip(1, msg)` with an empty context |
| BruhContextable.CEWrapSkip | pkg/bruh/contextable_error.go:76-84 | nil exactly for a nil cause; otherwise a fresh error over `WrapSkip(err, skip+1, msg)` with an empty context |
| BruhContextable.CEWrap | pkg/bruh/contextable_error.go:63-71 | nil exactly for a nil cause; otherwise a fresh error over `WrapSkip(err, 1, msg)` with an empty context |
| BruhContextable.GetContext | pkg/bruh/contextable_error.go:150-155 | a contexter's own map, nil for nil or any other error |
| BruhContextable.ContextIsOwn | pkg/bruh/contextable_error.go:130-135 | `Context` gives only the node's own map |
| BruhContextable.GetFullContext | pkg/bruh/contextable_error.go:159-173 | the corrected recursion returns the full context: empty for nil, nil without entries, the outermost value of every key otherwise |
| BruhCtxError.ContextableError.constructor | pkg/bruh/ctxerror/contextable_error.go:33-38 | the node and an empty context |
| BruhCtxError.ContextableError.AsError | pkg/bruh/ctxerror/contextable_error.go:138-140 | as an error in a chain, the node exposes its own context |
| BruhCtxError.ContextableError.Add | pkg/bruh/ctxerror/contextable_error.go:118-125 | the context after `Add`: removed for a nil value, set otherwise, nothing else changed |
| BruhCtxError.ContextableError.AddAll | pkg/bruh/ctxerror/contextable_error.go:128-133 | the context after adding every entry of the given map |
| BruhCtxError.ContextableError.FullContext | pkg/bruh/ctxerror/contextable_error.go:143-145 | the full context of the chain from this node |
| BruhCtxError.NewSkip | pkg/bruh/ctxerror/contextable_error.go:42-47 | a fresh error over `NewSkip(skip+1, msg)` with an empty context |
| BruhCtxError.New | pkg/bruh/ctxerror/contextable_error.go:33-38 | a fresh error over `NewSkip(1, msg)` with an empty context |
| BruhCtxError.WrapSkip | pkg/bruh/ctxerror/contextable_error.go:81-89 | nil exactly for a nil cause; otherwise a fresh error over `WrapSkip(err, skip+1, msg)` with an empty context |
| BruhCtxError.Wrap | pkg/bruh/ctxerror/contextable_error.go:68-76 | nil exactly for a nil cause; otherwise a fresh error over `WrapSkip(err, 1, msg)` with an empty context |
| BruhCtxError.GetContext | pkg/bruh/ctxerror/contextable_error.go:155-160 | a contexter's own map, nil for nil or any other error |
| BruhCtxError.ContextIsOwn | pkg/bruh/ctxerror/contextable_error.go:138-140 | `Context` gives only the node's own map |
| BruhCtxError.GetFullContext | pkg/bruh/ctxerror/contextable_error.go:164-178 | the corrected recursion returns the full context: empty for nil, nil without entries, the outermost value of every key otherwise |
| CtxError.Err.constructor | pkg/ctxerror/context_error.go:45-48 | the node and an empty context |
| CtxError.Err.AsError | pkg/ctxerror/context_error.go:127-129 | as an error in a chain, the node exposes its own context and unwraps as its `bruh.Err` does |
| CtxError.Err.Add | pkg/ctxerror/context_error.go:96-106 | the pairs stored in order, non-string keys under their printed text, a trailing key dropped |
| CtxError.Err.AddAll | pkg/ctxerror/context_error.go:109-114 | every entry stored over the existing ones |
| CtxError.Err.Remove | pkg/ctxerror/context_error.go:117-122 | exactly the listed keys deleted |
| CtxError.NewSkip | pkg/ctxerror/context_error.go:56-63 | a fresh error over `bruh.NewSkip(skip+1, msg)` holding the given pairs |
| CtxError.New | pkg/ctxerror/context_error.go:44-51 | a fresh error over `bruh.NewSkip(1, msg)` holding the given pairs |
| CtxError.WrapSkip | pkg/ctxerror/context_error.go:82-92 | nil exactly for a nil cause; otherwise a fresh error over `bruh.WrapSkip(err, skip+1, msg)` holding the pairs |
| CtxError.Wrap | pkg/ctxerror/context_error.go:67-77 | nil exactly for a nil cause; otherwise a fresh error over `bruh.WrapSkip(err, 1, msg)` holding the pairs |
| CtxError.GetContext | pkg/ctxerror/context_error.go:146-162 | the outer-to-inner first-wins walk gives the same map as the older inner-to-outer merge: every key with its outermost value |
| CtxError.VisitEntry | pkg/ctxerror/context_error.go:186-192 | one entry: a key already handed over is skipped, a new one is handed over, and a false answer stops |
| CtxError.VisitNode | pkg/ctxerror/context_error.go:184-194 | the entries of one node are handed over once each, agreeing with the outer-wins merge, until the callback stops |
| CtxError.IterContext | pkg/ctxerror/context_error.go:180-197 | one pass of a fresh iterator: every key handed over at most once with its outermost value; the walk stops at the first false answer; when there is none, every key of the chain's context is handed over |
| CtxError.Pass | pkg/ctxerror/context_error.go:182-196 | the calls of one pass as for `IterContext`, and where the loop variable ends: nil exactly when every call was accepted, else a suffix of the chain starting at a node with context; nothing is handed over for a nil chain |
| CtxError.Iterator.constructor | pkg/ctxerror/context_error.go:180-181 | the closure starts from the error it captures |
| CtxError.Iterator.Run | pkg/ctxerror/context_error.go:180-197 | one call of the returned closure: a pass from the captured error, which is left where the pass ended, so a later call goes on from there |
| CtxError.SecondRangeIsEmpty | pkg/ctxerror/context_error.go:183 | on a one-node chain with one entry, a first range over the iterator hands the entry over and a second range over the same iterator hands over nothing |
| MultiError.Entries | pkg/multierror/multi_error.go:61-73 | one rendered entry per held error |
| MultiError.Texts | pkg/multierror/multi_error.go:68 | the `Error()` text of each held error, in order |
| MultiError.Err.constructor | pkg/multierror/multi_error.go:21-24 | the node and the given errors |
| MultiError.Err.Add | pkg/multierror/multi_error.go:98-100 | the errors appended in order after those already held |
| MultiError.Err.AsError | pkg/multierror/multi_error.go:88-90 | `Unwrap` is nil: the error is a one-node chain and the held errors are not part of it |
| MultiError.Err.Error | pkg/multierror/multi_error.go:48-75 | the message on its own line when non-empty, then each entry `Error <padded index>: <text>` on its own line; empty exactly when `IsNil` |
| MultiError.ErrorOrNil | pkg/multierror/multi_error.go:79-84 | nil exactly when `IsNil`, the receiver itself otherwise |
| MultiError.IsNil | pkg/multierror/multi_error.go:93-95 | true for a nil receiver; for a non-nil one, true exactly when its error list is empty |
| MultiError.New | pkg/multierror/multi_error.go:20-25 | a fresh error over `bruh.NewSkip(1, msg)` holding exactly the given errors |
| MultiError.Wrap | pkg/multierror/multi_error.go:33-35 | `New` holding exactly the wrapped error |
| MultiError.WriteZeros | pkg/multierror/multi_error.go:63-65 | the padding loop writes k zeros, none when k is not positive |
| MultiError.WriteEntry | pkg/multierror/multi_error.go:62-68 | appends `Error `, the padded index, `: ` and the text |
| MultiError.Pieces | pkg/multierror/multi_error.go:61-73 | one piece per held error |
| MultiError.PiecesAreJoin | pkg/multierror/multi_error.go:61-73 | the pieces laid end to end are the entries joined by newlines, none after the last |
| MultiError.WriteEntries | pkg/multierror/multi_error.go:61-73 | the entry loop appends exactly the newline-joined entries |
| MultiError.RenderedEmptyIffNoErrors | pkg/multierror/multi_error.go:48-75 | the rendering is empty exactly when no error is held |
| MultiError.RenderedStartsWithMessage | pkg/multierror/multi_error.go:56-68 | a non-empty message leads on its own line, followed by entry 0 |
| MultiError.PaddedToCommonWidth | pkg/multierror/multi_error.go:60-66 | every index takes as many digits as the number of entries, leading zeros filling the gap |

## Left out

- Stack capture and symbolisation: `runtime.Callers` and `runtime.CallersFrames`. The goroutine's call stack is a parameter `stack: seq<PC>` and symbol resolution a parameter `resolve`. Line numbers and stack counts that depend on a real run are therefore outside the model.
- Helpers defined elsewhere in the module: `typeName`, `isGloballyDefinedError`, `new4xStack`, `allocFrames` and the package-level `Message`. Each is a parameter: a function argument, or the `text` of the node being built.
- `stackPC.isGlobal` of pkg/bruh, called at pkg/bruh/traceable_error.go:24 and :62, is not part of this model. It is the parameter `isGlobal` of `Traceable.NewSkip`, `Traceable.WrapSkip` and the constructors built on them.
- Errors.FullStack: does not capture the aliasing of the `append` at pkg/errors/error.go:156. If `RelativeTo` returns a prefix sub-slice of the inner node's stored stack, as `relativeStack` does at pkg/errors/stack.go:110, the `append` can write into that node's array. The model's stacks are values, so no node's stored stack ever changes.
- The buffered `stackPC.toStack(Stack) int` of pkg/bruh, called at pkg/bruh/unpacker.go:97 and :352, is not part of this model. In its place, `Unpacker.StackOf` resolves a node's program counters with `resolve` and keeps at most the 32 frames the buffer holds, and `Unpacker.CombinedStackOf` resolves the combined counters with `resolve`.
- `Stack.GetSourceLines`, called at pkg/bruh/format_bruh_trace.go:237, is not part of this model. The source lines it would return are an input of `BruhTrace`.
- `stackPC.toStack` of pkg/errors, called at pkg/errors/error.go:136 and :159, is not part of this model. It is the parameter `toStack` of `Errors.FullStack`, and the parameters `stackOf` and `fullStackOf` of the unpacking in `ErrorsFormat`.
- `sync.Pool` and its concurrency. Only the sizing and reset arithmetic of the pooled slices is modelled (`Unpacker.SliceHeader`). Each pool is a single-threaded object.
- File I/O in `getSourceLinesFromFile`: `os.Getwd`, `filepath.Rel`, the ".go" suffix test, `os.Open` and `bufio.Scanner` (pkg/bruh/unpacker.go:488-546). The file's lines are an input.
- The `sort.Slice` of the requested line numbers (pkg/bruh/unpacker.go:484-486). The model takes the index in the order it is given.
- The map plumbing of `GetSourceLines` (pkg/bruh/unpacker.go:233-275). The formatters take the source lines as given, with their shape stated as preconditions.
- `unsafe` zero-copy string views (pkg/bruh/unpacker.go:168, internal/stringbuilder/builder.go:39). They are modelled as ordinary sequence copies, so aliasing between a returned string and the buffer is not captured.
- The builder accessor `Bytes` of internal/stringbuilder/builder.go:42-45. It returns the same bytes as `String`, which is modelled.
- Capacity planning in the formatters: their capacity guesses and `Grow` calls. None of them changes the text. `Grow` itself is modelled.
- `fmt.Sprintf`- and `fmt.Errorf`-based variants: `Errorf`, `ErrorfSkip`, `Wrapf`, `WrapfSkip`, `CEErrorf`, `CEWrapf` and their `Skip` forms. Their message is an opaque string, so each behaves like its non-`f` counterpart, which is modelled.
- The `Format(fmt.State, rune)` methods of every error type. They only choose between two texts that are modelled separately.
- `text/template` execution in `ToString` and `ToCustomString` of pkg/errors/format.go:10-120, together with its template constants. The template functions `inc`, `dec`, `reversed` and `last` are modelled.
- The `Stack.String` rendering of pkg/errors/stack.go:12-19 and `StackFrame.String` of pkg/errors/stack.go:47-49. They render frames through `fmt` verbs.
- `formatExternalStr` of pkg/errors/format.go:180-185, which only dispatches between two `fmt` verbs.
- `errors.Is` and `errors.As`, which delegate to the standard library.
- `AsSLogValue` of pkg/ctxerror/context_error.go:201-235, which depends on `log/slog`.
- `RangeContext`, which only forwards to `IterContext`. The `yield` callback of `IterContext` is a pure function `visit`.
- A node's capabilities come from one package. A `*bruh.TraceableError` has `stackPC()`, `Stack()` and `FullStack()` of pkg/bruh and no `Callers()`; a `*bruh.Err` has `Callers()` and `Stack()` and no `stackPC()`; a `*errors.TraceableError` has those three methods with the types of pkg/errors. A type outside the library that implements another package's interfaces, such as a pkg/bruh `stackPC()` beside a pkg/errors `Stack()`, is not modelled.
- A type outside the library with `Message()` and a `Stack()` that returns nil is not modelled. `BruhFormat` gives every base element a stack, where pkg/bruh/format.go:125 and :208 treat a nil stack as none.
- Convenience aliases: `StackFrames()` (an alias of `Stack()`), `disposeUnpacker`, the `Unpacker.Error` accessor and the multi-error `Errors` getter. Each returns a field or delegates unchanged.
- The one-line formatter wrappers `BruhFormatter`, `BruhFancyFormatter`, `BruhStackedFormatter` and `BruhStackedFancyFormatter`. Each only fixes the flags of `BruhTrace.FormatBruhStacked` or `BruhTrace.FormatBruhSourced`.
- `CombinedMessage` and `AppendMessage`. They call `appendMessageToBuffer`, which is not part of this model.
- Iteration order of Go maps. The model's maps are unordered values. A Go map's identity is not modelled, so two callers sharing one map are not captured.
- Multi-byte characters. One `char` stands for one byte of a Go string.
- Util.DigitsInNumberIsDecimalWidth: exact only for magnitudes below 10^9. Above that, `Util.DigitsInNumberSaturates` gives the documented saturation at 10.
- MultiError.PaddedToCommonWidth: stated for fewer than 10^9 entries, where the digit count is exact.
- BruhTrace.AlignedLineNumbers: stated for line numbers below 10^9, for the same reason.
- MultiError.Err.Error: requires every held error to be non-nil, because `err.Error()` on a nil entry panics. It also requires at most 2^63-1 entries, the range of the `int` index.
- MultiError.Texts: requires every held error to be non-nil, because `Error()` on a nil entry panics.
- BruhStack.First: requires `x >= 0`. A negative `x` makes the slice expression at pkg/bruh/stack.go:45 panic, and the panic is not modelled.
- BruhStack.Last: requires `x >= 0`. A negative `x` makes the slice expression at pkg/bruh/stack.go:53 panic, and the panic is not modelled.
- BruhFormat.FormatWithoutTrace and BruhFormat.FormatWithCombinedTrace: require a non-empty element list, because the code reads `upkErr[0]` and panics on an empty list.
- Errors.NewSkip, Errors.New, Errors.Wrap and Errors.WrapSkip: require a call stack deep enough for `callers` to drop its last two entries. On a shallower stack, `pcs[0 : n-2]` panics.
- ErrorsStack.Callers: requires a call stack with at least two entries after the skipped ones. On a shallower stack, `pcs[0 : n-2]` panics, and the panic is not modelled.
- ErrorsFormat.Inc: states only that the result exceeds its argument. `ErrorsFormat.DecUndoesInc` pins it down as `+1`.

## Findings

| source | as written | input that shows it | evidently intended | confidence | as-written member | corrected member |
|---|---|---|---|---|---|---|
| pkg/bruh/contextable_error.go:159-173 | `GetFullContext` starts from the nil map that a plain innermost error gives, then assigns the outer entries into it, which panics; pkg/bruh/ctxerror/contextable_error.go:164-178 has the same code | a context node with at least one entry that wraps a plain `errors.New("root")` | merge into a freshly made map, so that outer entries override inner ones | not executed | ContextMaps.FullContextAsWritten, ContextMaps.ContextOverPlainErrorPanics | ContextMaps.FullContext, ContextMaps.AsWrittenAgreesUnlessPanic, BruhContextable.GetFullContext, BruhCtxError.GetFullContext |
| pkg/errors/format.go:80-82 | the template function `dec` returns `i + 1` | `dec (inc 0)` gives 2 | `dec` returns `i - 1` and undoes `inc` | not executed | ErrorsFormat.DecAsWritten, ErrorsFormat.DecAsWrittenDoesNotUndoInc | ErrorsFormat.Dec, ErrorsFormat.DecUndoesInc |
| internal/util/util.go:6-11 | a negative argument is negated in 64-bit arithmetic, and the negation of the smallest `int64` wraps to itself | -9223372036854775808 gives 1 | 10, the saturated count of its 19-digit magnitude | not executed | Util.DigitsInNumberAsWritten, Util.DigitsOfMinInt64AsWritten | Util.DigitsInNumber, Util.DigitsInNumberSymmetric |
| pkg/ctxerror/context_error.go:180-197 | the returned closure advances the captured `err` in its loop (line 183), so the iterator walks the chain once: ranging over it again after a full pass hands nothing over, and after an early stop it starts again at the node where it stopped, with a fresh `yielded` set | a one-node chain with context `{"a": v}`, ranged over twice | every range over the iterator walks the chain from `err`, as `RangeContext` does | not executed | CtxError.Iterator.Run, CtxError.SecondRangeIsEmpty | CtxError.IterContext |
