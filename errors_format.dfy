// pkg/errors/format.go: unpacking a chain of the oldest generation into
// elements, their JSON-ready form, and the helper functions its templates
// call.
module ErrorsFormat {
  import opened Text
  import opened Chain
  import BruhStack
  import Traceable

  /**
   * `UnpackedElement`: the node, its `Error()` text, its type name and, for
   * a node with `Stack()` and `FullStack()`, its stack, the part of it not
   * shared with the previous such node, and its full stack (empty for any
   * other node).
   */
  datatype Element = Element(err: Error, msg: string, typeName: string,
                             stack: seq<Frame>, partialStack: seq<Frame>, fullStack: seq<Frame>)

  /** The interface `Unpack` type-switches on: `Stack()` and `FullStack()`, both returning this package's `Stack`. */
  predicate IsBase(e: Error)
  {
    HasStack(e, ErrorsPkg) && HasFullStack(e, ErrorsPkg)
  }

  /**
   * The elements from `err` on, `prv` being the stack of the last base
   * element before it. `stackOf` and `fullStackOf` are what a base node's
   * `Stack()` and `FullStack()` return.
   */
  function UnpackFrom(err: Option<Error>, prv: seq<Frame>, unwrapExternal: bool,
                      stackOf: Error -> seq<Frame>, fullStackOf: Error -> seq<Frame>): (r: seq<Element>)
    ensures |r| <= Depth(err)
    ensures err.None? <==> |r| == 0
    decreases Depth(err)
  {
    match err
    case None => []
    case Some(e) =>
      if IsBase(e) then
        var st := stackOf(e);
        [Element(e, e.text, Traceable.TypeName(e), st, BruhStack.Relative(st, prv), fullStackOf(e))]
          + UnpackFrom(Unwrap(err), st, unwrapExternal, stackOf, fullStackOf)
      else
        [Element(e, e.text, Traceable.TypeName(e), [], [], [])]
          + (if unwrapExternal then UnpackFrom(Unwrap(err), prv, unwrapExternal, stackOf, fullStackOf) else [])
  }

  function Unpacked(err: Option<Error>, unwrapExternal: bool, stackOf: Error -> seq<Frame>,
                    fullStackOf: Error -> seq<Frame>): seq<Element>
  {
    UnpackFrom(err, [], unwrapExternal, stackOf, fullStackOf)
  }

  /** `Unpack`: one element per visited node, appended while walking the chain. */
  method Unpack(err: Option<Error>, unwrapExternal: bool, stackOf: Error -> seq<Frame>,
                fullStackOf: Error -> seq<Frame>) returns (upkErr: seq<Element>)
    ensures upkErr == Unpacked(err, unwrapExternal, stackOf, fullStackOf)
  {
    upkErr := [];
    var prvStack: seq<Frame> := [];
    var cur := err;
    while cur.Some?
      invariant upkErr + UnpackFrom(cur, prvStack, unwrapExternal, stackOf, fullStackOf)
             == Unpacked(err, unwrapExternal, stackOf, fullStackOf)
      decreases Depth(cur)
    {
      var e := cur.value;
      ghost var before := upkErr;
      if IsBase(e) {
        var stack := stackOf(e);
        var partial := BruhStack.RelativeTo(stack, prvStack);
        var element := Element(e, e.text, Traceable.TypeName(e), stack, partial, fullStackOf(e));
        AppendAssoc(before, [element], UnpackFrom(Unwrap(cur), stack, unwrapExternal, stackOf, fullStackOf));
        upkErr := upkErr + [element];
        prvStack := stack;
      } else {
        var element := Element(e, e.text, Traceable.TypeName(e), [], [], []);
        var rest := if unwrapExternal then UnpackFrom(Unwrap(cur), prvStack, unwrapExternal, stackOf, fullStackOf) else [];
        AppendAssoc(before, [element], rest);
        upkErr := upkErr + [element];
        if !unwrapExternal {
          assert upkErr + [] == upkErr;
          return;
        }
      }
      cur := Unwrap(cur);
    }
  }

  /** What every element records, base or not: its node (in chain order), its `Error()` text and its type name. */
  predicate Describes(r: seq<Element>, nodes: seq<Error>)
  {
    |r| <= |nodes| && forall i :: 0 <= i < |r| ==>
      r[i].err == nodes[i] && r[i].msg == nodes[i].text && r[i].typeName == Traceable.TypeName(nodes[i])
  }

  /**
   * Element `i` describes node `i` of the chain, and with `unwrapExternal`
   * every node gets an element; without it the walk ends at the first
   * foreign node: every element but the last is a base node, and the list
   * stops short of the chain only after a foreign one.
   */
  lemma {:induction false} ElementsFollowChain(err: Option<Error>, prv: seq<Frame>, unwrapExternal: bool,
                                               stackOf: Error -> seq<Frame>, fullStackOf: Error -> seq<Frame>)
    ensures Describes(UnpackFrom(err, prv, unwrapExternal, stackOf, fullStackOf), Nodes(err))
    ensures unwrapExternal ==> |UnpackFrom(err, prv, unwrapExternal, stackOf, fullStackOf)| == Depth(err)
    ensures var n, nodes := |UnpackFrom(err, prv, unwrapExternal, stackOf, fullStackOf)|, Nodes(err);
      !unwrapExternal ==>
        && (forall i :: 0 <= i < n - 1 ==> IsBase(nodes[i]))
        && (n < |nodes| ==> 0 < n && !IsBase(nodes[n - 1]))
    decreases Depth(err)
  {
    if err.Some? {
      var e := err.value;
      var prv' := if IsBase(e) then stackOf(e) else prv;
      ElementsFollowChain(Unwrap(err), prv', unwrapExternal, stackOf, fullStackOf);
      var rest := UnpackFrom(Unwrap(err), prv', unwrapExternal, stackOf, fullStackOf);
      var tail := if IsBase(e) || unwrapExternal then rest else [];
      var r := UnpackFrom(err, prv, unwrapExternal, stackOf, fullStackOf);
      var nodes, inner := Nodes(err), Nodes(Unwrap(err));
      assert nodes == [e] + inner;
      assert r == [r[0]] + tail;
      forall i | 0 <= i < |r|
        ensures r[i].err == nodes[i] && r[i].msg == nodes[i].text && r[i].typeName == Traceable.TypeName(nodes[i])
      {
        if i > 0 {
          assert r[i] == tail[i - 1] && nodes[i] == inner[i - 1];
        }
      }
      if !unwrapExternal && IsBase(e) {
        forall i | 0 < i < |r| - 1
          ensures IsBase(nodes[i])
        {
          assert nodes[i] == inner[i - 1];
        }
        if |r| < |nodes| {
          assert nodes[|r| - 1] == inner[|rest| - 1];
        }
      }
    }
  }

  /** A base element's partial stack is its own stack with the end it shares with the previous base element cut off. */
  lemma PartialIsPrefix(err: Option<Error>, prv: seq<Frame>, unwrapExternal: bool,
                        stackOf: Error -> seq<Frame>, fullStackOf: Error -> seq<Frame>)
    requires err.Some? && IsBase(err.value)
    ensures var el := UnpackFrom(err, prv, unwrapExternal, stackOf, fullStackOf)[0];
      && el.stack == stackOf(err.value)
      && el.stack == el.partialStack + el.stack[|el.partialStack|..]
      && el.stack[|el.partialStack|..] == prv[|prv| - (|el.stack| - |el.partialStack|)..]
  {
    BruhStack.RelativeSplits(stackOf(err.value), prv);
  }

  // ---- JSON ---------------------------------------------------------------------

  /** The `interface{}` values `ToJSON` builds: strings, integers, lists and string-keyed maps. */
  datatype Json = JString(s: string) | JInt(i: int) | JList(items: seq<Json>) | JObject(fields: map<string, Json>)

  /** One frame: its function, file, line and the `name:file:line` location. */
  function FrameJson(f: Frame): (j: Json)
    ensures j.JObject? && j.fields.Keys == {"function", "file", "line", "location"}
    ensures j.fields["location"] == JString(f.name + ":" + f.file + ":" + Decimal(f.line))
  {
    JObject(map["function" := JString(f.name), "file" := JString(f.file), "line" := JInt(f.line),
                "location" := JString(f.name + ":" + f.file + ":" + Decimal(f.line))])
  }

  function StackJson(ps: seq<Frame>): (r: seq<Json>)
    ensures |r| == |ps|
  {
    seq(|ps|, i requires 0 <= i < |ps| => FrameJson(ps[i]))
  }

  /** The map `formatJSON` returns: the message always, the partial stack only with a trace. */
  function ElementJson(e: Element, withTrace: bool): (m: map<string, Json>)
    ensures m.Keys == (if withTrace then {"message", "stack"} else {"message"})
    ensures m["message"] == JString(e.msg)
    ensures withTrace ==> m["stack"] == JList(StackJson(e.partialStack))
  {
    if withTrace then map["message" := JString(e.msg), "stack" := JList(StackJson(e.partialStack))]
    else map["message" := JString(e.msg)]
  }

  /** `formatJSON`: the message, then, with a trace, one map per partial-stack frame. */
  method FormatJson(ue: Element, withTrace: bool) returns (wrapMap: map<string, Json>)
    ensures wrapMap == ElementJson(ue, withTrace)
  {
    wrapMap := map[];
    wrapMap := wrapMap["message" := JString(ue.msg)];
    var stackList: seq<Json> := [];
    if withTrace {
      for k := 0 to |ue.partialStack|
        invariant stackList == StackJson(ue.partialStack[..k])
      {
        var frame := ue.partialStack[k];
        var stackMap: map<string, Json> := map[];
        stackMap := stackMap["function" := JString(frame.name)];
        stackMap := stackMap["file" := JString(frame.file)];
        stackMap := stackMap["line" := JInt(frame.line)];
        stackMap := stackMap["location" := JString(frame.name + ":" + frame.file + ":" + Decimal(frame.line))];
        assert JObject(stackMap) == FrameJson(frame);
        assert StackJson(ue.partialStack[..k + 1]) == StackJson(ue.partialStack[..k]) + [FrameJson(frame)];
        stackList := stackList + [JObject(stackMap)];
      }
      assert ue.partialStack[..|ue.partialStack|] == ue.partialStack;
      wrapMap := wrapMap["stack" := JList(stackList)];
    }
  }

  function JsonList(upk: seq<Element>, withTrace: bool): (r: seq<Json>)
    ensures |r| == |upk|
  {
    seq(|upk|, i requires 0 <= i < |upk| => JObject(ElementJson(upk[i], withTrace)))
  }

  /** `ToJSON`: one map per element of the chain unpacked with foreign layers included, in the same order. */
  method ToJson(err: Option<Error>, withTrace: bool, stackOf: Error -> seq<Frame>, fullStackOf: Error -> seq<Frame>)
    returns (jsonList: seq<Json>)
    ensures jsonList == JsonList(Unpacked(err, true, stackOf, fullStackOf), withTrace)
  {
    var upkErr := Unpack(err, true, stackOf, fullStackOf);
    jsonList := [];
    for k := 0 to |upkErr|
      invariant jsonList == JsonList(upkErr[..k], withTrace)
    {
      var m := FormatJson(upkErr[k], withTrace);
      assert JsonList(upkErr[..k + 1], withTrace) == JsonList(upkErr[..k], withTrace) + [JObject(m)];
      jsonList := jsonList + [JObject(m)];
    }
    assert upkErr[..|upkErr|] == upkErr;
  }

  /** Every node of the chain gets one JSON entry carrying its `Error()` text. */
  lemma JsonCoversChain(err: Option<Error>, withTrace: bool, stackOf: Error -> seq<Frame>, fullStackOf: Error -> seq<Frame>)
    ensures var j := JsonList(Unpacked(err, true, stackOf, fullStackOf), withTrace);
      |j| == Depth(err) && forall i :: 0 <= i < |j| ==> j[i].fields["message"] == JString(Nodes(err)[i].text)
  {
    ElementsFollowChain(err, [], true, stackOf, fullStackOf);
  }

  // ---- template helpers ------------------------------------------------------------

  /** `inc`: one more. */
  function Inc(i: int): (r: int)
    ensures r > i
  {
    i + 1
  }

  /** `dec` as written: it increments too, so it is `inc` under another name. */
  function DecAsWritten(i: int): (r: int)
    ensures r == Inc(i)
  {
    i + 1
  }

  /** `dec` as its name and its pairing with `inc` intend: one less. */
  function Dec(i: int): (r: int)
    ensures r < i
  {
    i - 1
  }

  /** The `dec` that is written does not undo `inc`: `dec (inc 0)` is 2. */
  lemma DecAsWrittenDoesNotUndoInc()
    ensures DecAsWritten(Inc(0)) == 2 != 0
  {
  }

  /** The intended `dec` undoes `inc`, and the other way round. */
  lemma DecUndoesInc(i: int)
    ensures Dec(Inc(i)) == i && Inc(Dec(i)) == i
  {
  }

  /** `last i len`: whether `i` is the final index of a range over `len` elements. */
  predicate Last(i: int, length: int): (r: bool)
    ensures r <==> i + 1 == length
  {
    i == length - 1
  }

  /** A value `reversed` may be given: a slice, or anything else. */
  datatype Reflected<T> = SliceOf(items: seq<T>) | NotSlice

  /** `reversed`: a new list of the elements back to front, or nil for a non-slice. */
  method Reversed<T>(s: Reflected<T>) returns (r: Option<seq<T>>)
    ensures s.NotSlice? ==> r.None?
    ensures s.SliceOf? ==> r == Some(Reverse(s.items))
  {
    if s.NotSlice? {
      return None;
    }
    var sv := s.items;
    var reversed: seq<T> := [];
    var i := |sv| - 1;
    while i >= 0
      invariant -1 <= i < |sv|
      invariant reversed == Reverse(sv[i + 1..])
      decreases i
    {
      assert sv[i..][1..] == sv[i + 1..];
      ReverseCons(sv[i], sv[i + 1..]);
      assert sv[i..] == [sv[i]] + sv[i + 1..];
      reversed := reversed + [sv[i]];
      i := i - 1;
    }
    assert sv[0..] == sv;
    return Some(reversed);
  }

  lemma ReverseCons<T>(x: T, s: seq<T>)
    ensures Reverse([x] + s) == Reverse(s) + [x]
  {
    var l := Reverse([x] + s);
    assert forall k :: 0 <= k < |l| ==> l[k] == (Reverse(s) + [x])[k];
  }

  /**
   * In a range over the reversed elements, `last` holds at exactly one
   * index, the one holding the first (outermost) element, so the Python
   * template writes no cause paragraph after the outermost error.
   */
  lemma LastIsOutermost<T>(s: seq<T>)
    requires |s| > 0
    ensures forall i :: 0 <= i < |s| ==> (Last(i, |Reverse(s)|) <==> i == |s| - 1)
    ensures Reverse(s)[|s| - 1] == s[0]
  {
  }
}
