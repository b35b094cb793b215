// pkg/ctxerror/context_error.go: the context error built on `*bruh.Err`. Its
// context map takes key/value pairs, whole maps and removals in place; the
// context of a chain is collected outermost first, the first value seen for
// a key winning.
module CtxError {
  import opened Chain
  import opened ContextMaps
  import BruhError

  const ErrType: string := "*ctxerror.Err"

  /** `Err`: the embedded `bruh.Err` node and the context map it owns. */
  class Err {
    const node: Error
    var context: map<string, Value>

    constructor (node: Error)
      ensures this.node == node && context == map[]
    {
      this.node := node;
      context := map[];
    }

    /** The node as a chain sees it: the embedded node's methods plus `Context()`. */
    function AsError(): (e: Error)
      reads this
      ensures e.context == Some(context) && e.link == node.link
    {
      node.(goType := ErrType, context := Some(context))
    }

    /** `Add(kv...)`: the pairs in order; a key that is not a string is stored under its printed text. */
    method Add(kv: seq<Value>)
      modifies this
      ensures context == AddedPairs(old(context), kv)
    {
      var l := |kv| - |kv| % 2;
      var i := 0;
      assert kv[..0] == [];
      while i < l
        invariant 0 <= i <= l && i % 2 == 0
        invariant context == AddedPairs(old(context), kv[..i])
      {
        assert kv[..i + 2] == kv[..i] + [kv[i], kv[i + 1]];
        AddedPairsSnoc(old(context), kv[..i], kv[i], kv[i + 1]);
        if kv[i].Str? {
          context := context[kv[i].s := kv[i + 1]];
        } else {
          context := context[Printed(kv[i]) := kv[i + 1]];
        }
        i := i + 2;
      }
      if l < |kv| {
        assert kv == kv[..l] + [kv[l]];
        AddedPairsDropsTrailingKey(old(context), kv[..l], kv[l]);
      } else {
        assert kv[..l] == kv;
      }
    }

    /** `AddAll`: every entry stored, overwriting the entries already there. */
    method AddAll(ctx: map<string, Value>)
      modifies this
      ensures context == old(context) + ctx
    {
      context := StoreAll(context, ctx);
    }

    /** `Remove(keys...)`: each listed key deleted. */
    method Remove(keys: seq<string>)
      modifies this
      ensures context == Removed(old(context), keys)
    {
      for i := 0 to |keys|
        invariant context == Removed(old(context), keys[..i])
      {
        assert keys[..i + 1] == keys[..i] + [keys[i]];
        RemovedSnoc(old(context), keys[..i], keys[i]);
        context := context - {keys[i]};
      }
      assert keys[..|keys|] == keys;
    }
  }

  /** `NewSkip`: a `bruh.Err` made one frame further out, with the given pairs added. */
  method NewSkip(skip: int, msg: string, kv: seq<Value>, text: string, stack: seq<PC>) returns (e: Err)
    ensures fresh(e)
    ensures e.node == BruhError.NewSkip(skip + 1, msg, text, stack)
    ensures e.context == AddedPairs(map[], kv)
  {
    e := new Err(BruhError.NewSkip(skip + 1, msg, text, stack));
    e.Add(kv);
  }

  /** `New`: `NewSkip` with nothing to skip. */
  method New(msg: string, kv: seq<Value>, text: string, stack: seq<PC>) returns (e: Err)
    ensures fresh(e)
    ensures e.node == BruhError.NewSkip(1, msg, text, stack)
    ensures e.context == AddedPairs(map[], kv)
  {
    e := NewSkip(0, msg, kv, text, stack);
  }

  /** `WrapSkip`: nil for a nil cause; otherwise a wrapping `bruh.Err` with the given pairs added. */
  method WrapSkip(err: Option<Error>, skip: int, msg: string, kv: seq<Value>, text: string, stack: seq<PC>)
    returns (e: Err?)
    ensures err.None? <==> e == null
    ensures e != null ==> fresh(e) && e.context == AddedPairs(map[], kv)
    ensures e != null ==> Some(e.node) == BruhError.WrapSkip(err, skip + 1, msg, text, stack)
  {
    if err.None? {
      return null;
    }
    var node := BruhError.WrapSkip(err, skip + 1, msg, text, stack);
    e := new Err(node.value);
    e.Add(kv);
  }

  /** `Wrap`: `WrapSkip` with nothing to skip. */
  method Wrap(err: Option<Error>, msg: string, kv: seq<Value>, text: string, stack: seq<PC>)
    returns (e: Err?)
    ensures err.None? <==> e == null
    ensures e != null ==> fresh(e) && e.context == AddedPairs(map[], kv)
    ensures e != null ==> Some(e.node) == BruhError.WrapSkip(err, 1, msg, text, stack)
  {
    e := WrapSkip(err, 0, msg, kv, text, stack);
  }

  /**
   * `GetContext`: the contexts of the chain walked outermost first, a key
   * taking the first value seen. The result is the inner-to-outer merge of
   * the older generations, so the outermost value of every key is kept
   * (ContextMaps.MergedIsOutermost).
   */
  method GetContext(err: Option<Error>) returns (ctx: map<string, Value>)
    ensures ctx == Merged(err)
  {
    if err.None? {
      return map[];
    }
    ctx := map[];
    var cur := err;
    UnionEmpty(Merged(err));
    while cur.Some?
      invariant Merged(err) == Merged(cur) + ctx
      decreases Depth(cur)
    {
      MergedPeel(cur, ctx);
      if cur.value.context.Some? {
        ctx := KeepAll(ctx, cur.value.context.value);
      }
      cur := Unwrap(cur);
    }
    UnionEmpty(ctx);
  }

  /** What `IterContext` has done so far: `m` is the part of the context seen, every key of it handed over once. */
  predicate Progress(calls: seq<(string, Value)>, yielded: set<string>, m: map<string, Value>, visit: (string, Value) -> bool)
  {
    yielded == m.Keys && DistinctKeys(calls) && Agrees(calls, m) && Covers(calls, m) && AllAccepted(calls, visit)
  }

  /** The loop body of `IterContext` for one entry: skip a key already handed over, else hand it over. */
  method VisitEntry(k: string, v: Value, visit: (string, Value) -> bool, yielded0: set<string>,
                    calls0: seq<(string, Value)>, ghost m: map<string, Value>)
    returns (stop: bool, yielded: set<string>, calls: seq<(string, Value)>)
    requires Progress(calls0, yielded0, m, visit)
    ensures var m' := if k in m then m else m[k := v];
      && DistinctKeys(calls) && Agrees(calls, m')
      && (!stop ==> Progress(calls, yielded, m', visit))
      && (stop ==> |calls| > 0 && AllAccepted(calls[..|calls| - 1], visit)
                   && !visit(calls[|calls| - 1].0, calls[|calls| - 1].1))
  {
    yielded := yielded0;
    calls := calls0;
    stop := false;
    if k in yielded {
      return;
    }
    var go := visit(k, v);
    HandOver(calls, m, k, v, visit);
    calls := calls + [(k, v)];
    if !go {
      return true, yielded, calls;
    }
    yielded := yielded + {k};
  }

  /**
   * One node of `IterContext`: each entry of `own` whose key was not yet
   * handed over goes to `visit`, until `visit` asks to stop.
   */
  method VisitNode(own: map<string, Value>, visit: (string, Value) -> bool, yielded0: set<string>,
                   calls0: seq<(string, Value)>, ghost seen: map<string, Value>)
    returns (stop: bool, yielded: set<string>, calls: seq<(string, Value)>)
    requires Progress(calls0, yielded0, seen, visit)
    ensures DistinctKeys(calls) && Agrees(calls, own + seen)
    ensures !stop ==> Progress(calls, yielded, own + seen, visit)
    ensures stop ==> |calls| > 0 && AllAccepted(calls[..|calls| - 1], visit)
                     && !visit(calls[|calls| - 1].0, calls[|calls| - 1].1)
  {
    yielded := yielded0;
    calls := calls0;
    var rest := own.Keys;
    ghost var done: set<string> := {};
    KeptNone(seen, own);
    while rest != {}
      invariant done + rest == own.Keys && done !! rest
      invariant Progress(calls, yielded, KeptUnder(seen, own, done), visit)
      decreases |rest|
    {
      var k :| k in rest;
      ghost var before := KeptUnder(seen, own, done);
      KeepStep(seen, own, done, k);
      stop, yielded, calls := VisitEntry(k, own[k], visit, yielded, calls, before);
      rest := rest - {k};
      done := done + {k};
      if stop {
        KeptWithin(seen, own, done);
        AgreesWider(calls, KeptUnder(seen, own, done), own + seen);
        return;
      }
    }
    KeptAll(seen, own);
    stop := false;
  }

  /**
   * One run of the loop of the closure `IterContext` returns: each key of the
   * chain's context handed to `visit` at most once, with the outermost
   * value, stopping as soon as `visit` returns false; when it never does,
   * every key is handed over. `calls` is the sequence of calls made, `rest`
   * where the loop variable stood at the end: nil after a full pass, else
   * the node holding the refused entry.
   */
  method Pass(err: Option<Error>, visit: (string, Value) -> bool) returns (calls: seq<(string, Value)>, rest: Option<Error>)
    ensures DistinctKeys(calls) && Agrees(calls, Merged(err))
    ensures |calls| > 0 ==> AllAccepted(calls[..|calls| - 1], visit)
    ensures AllAccepted(calls, visit) ==> Covers(calls, Merged(err))
    ensures rest.None? <==> AllAccepted(calls, visit)
    ensures err.None? ==> calls == []
    ensures rest.Some? ==> rest.value.context.Some? && Depth(rest) <= Depth(err) && Nodes(rest) == Nodes(err)[Depth(err) - Depth(rest)..]
  {
    calls := [];
    var yielded: set<string> := {};
    ghost var seen: map<string, Value> := map[];
    rest := err;
    UnionEmpty(Merged(err));
    while rest.Some?
      invariant Depth(rest) <= Depth(err) && Nodes(rest) == Nodes(err)[Depth(err) - Depth(rest)..]
      invariant Merged(err) == Merged(rest) + seen
      invariant Progress(calls, yielded, seen, visit)
      invariant err.None? ==> calls == []
      decreases Depth(rest)
    {
      var own := OwnContext(rest.value);
      MergedPeel(rest, seen);
      if rest.value.context.Some? {
        var stop;
        stop, yielded, calls := VisitNode(rest.value.context.value, visit, yielded, calls, seen);
        if stop {
          AgreesUnder(calls, Merged(Unwrap(rest)), own + seen);
          return;
        }
      }
      seen := own + seen;
      assert Nodes(Unwrap(rest)) == Nodes(rest)[1..];
      rest := Unwrap(rest);
    }
    UnionEmpty(seen);
  }

  /**
   * `IterContext(err)(visit)` as it is meant to behave, every call of the
   * iterator walking the chain from `err` again: the calls of one pass.
   */
  method IterContext(err: Option<Error>, visit: (string, Value) -> bool) returns (calls: seq<(string, Value)>)
    ensures DistinctKeys(calls) && Agrees(calls, Merged(err))
    ensures |calls| > 0 ==> AllAccepted(calls[..|calls| - 1], visit)
    ensures AllAccepted(calls, visit) ==> Covers(calls, Merged(err))
  {
    var rest;
    calls, rest := Pass(err, visit);
  }

  /**
   * The closure `IterContext(err)` returns, as written: it captures `err`
   * and its loop advances that variable, so a later call goes on from where
   * the last one ended.
   */
  class Iterator {
    var err: Option<Error>

    constructor (err: Option<Error>)
      ensures this.err == err
    {
      this.err := err;
    }

    /** One call of the closure: a pass from the captured error, which is left where the pass ended. */
    method Run(visit: (string, Value) -> bool) returns (calls: seq<(string, Value)>)
      modifies this
      ensures DistinctKeys(calls) && Agrees(calls, Merged(old(err)))
      ensures |calls| > 0 ==> AllAccepted(calls[..|calls| - 1], visit)
      ensures AllAccepted(calls, visit) ==> Covers(calls, Merged(old(err)))
      ensures err.None? <==> AllAccepted(calls, visit)
      ensures old(err).None? ==> calls == []
      ensures err.Some? ==> Depth(err) <= Depth(old(err)) && Nodes(err) == Nodes(old(err))[Depth(old(err)) - Depth(err)..]
    {
      calls, err := Pass(err, visit);
    }
  }

  /**
   * Ranging twice over one iterator: the first range hands over the entry
   * of a one-node chain, the second hands over nothing, where a fresh walk
   * of the chain would hand it over again.
   */
  method SecondRangeIsEmpty(e: Error, k: string, v: Value) returns (first: seq<(string, Value)>, second: seq<(string, Value)>)
    requires e.context == Some(map[k := v]) && Unwrap(Some(e)).None?
    ensures |first| > 0 && first[0] == (k, v)
    ensures second == []
  {
    var all := (k': string, v': Value) => true;
    var it := new Iterator(Some(e));
    first := it.Run(all);
    assert AllAccepted(first, all);
    assert it.err.None?;
    second := it.Run(all);
    assert Merged(None) == map[];
    assert Merged(Some(e)) == map[k := v];
    assert k in Merged(Some(e));
    assert Covers(first, Merged(Some(e)));
    assert |first| > 0;
  }
}
