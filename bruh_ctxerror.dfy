// pkg/bruh/ctxerror/contextable_error.go: the package `ctxerror` built on the
// traceable error, with the same key/value context that `Add` and `AddAll`
// update in place, and its own functions that read the context of a chain.
module BruhCtxError {
  import opened Chain
  import opened ContextMaps
  import Traceable

  const ErrType: string := "*ctxerror.ContextableError"

  /**
   * `ContextableError`: the embedded traceable node (its message, cause and
   * stack) and the context map it owns.
   */
  class ContextableError {
    const node: Error
    var context: map<string, Value>

    /** `New`-style construction: the traceable node and an empty context. */
    constructor (node: Error)
      ensures this.node == node && context == map[]
    {
      this.node := node;
      context := map[];
    }

    /** The node as a chain sees it: the embedded node's methods plus `Context()`. */
    function AsError(): (e: Error)
      reads this
      ensures e.context == Some(context)
    {
      node.(goType := ErrType, context := Some(context))
    }

    /** `Add`: a nil value deletes the key, any other value sets it. */
    method Add(key: string, value: Value)
      modifies this
      ensures context == Added(old(context), key, value)
    {
      if value.Nil? {
        context := context - {key};
        return;
      }
      context := context[key := value];
    }

    /** `AddAll`: `Add` for each entry, in the map's (unspecified) order. */
    method AddAll(ctx: map<string, Value>)
      modifies this
      ensures context == AddedAll(old(context), ctx)
    {
      var rest := ctx.Keys;
      ghost var done: set<string> := {};
      AddedAllEmpty(context, ctx);
      while rest != {}
        invariant done + rest == ctx.Keys && done !! rest
        invariant context == AddedAll(old(context), Restrict(ctx, done))
        decreases |rest|
      {
        var key :| key in rest;
        AddedAllStep(old(context), ctx, done, key);
        Add(key, ctx[key]);
        rest := rest - {key};
        done := done + {key};
      }
      RestrictAll(ctx);
    }

    /** `FullContext`: `GetFullContext` on this node. */
    method FullContext() returns (ctx: Option<map<string, Value>>)
      ensures ctx == ContextMaps.FullContext(Some(AsError()))
    {
      ctx := GetFullContext(Some(AsError()));
    }
  }

  /** `NewSkip`: a traceable node made one frame further out, and an empty context. */
  method NewSkip(skip: nat, msg: string, stack: seq<PC>, isGlobal: seq<PC> -> bool) returns (e: ContextableError)
    ensures fresh(e)
    ensures e.node == Traceable.NewSkip(skip + 1, msg, stack, isGlobal) && e.context == map[]
  {
    e := new ContextableError(Traceable.NewSkip(skip + 1, msg, stack, isGlobal));
  }

  /** `New`: `NewSkip` with nothing to skip. */
  method New(msg: string, stack: seq<PC>, isGlobal: seq<PC> -> bool) returns (e: ContextableError)
    ensures fresh(e)
    ensures e.node == Traceable.NewSkip(1, msg, stack, isGlobal) && e.context == map[]
  {
    e := NewSkip(0, msg, stack, isGlobal);
  }

  /** `WrapSkip`: nil for a nil cause; otherwise a wrapping traceable node and an empty context. */
  method WrapSkip(err: Option<Error>, skip: nat, msg: string, stack: seq<PC>, isGlobal: seq<PC> -> bool)
    returns (e: ContextableError?)
    ensures err.None? <==> e == null
    ensures e != null ==> fresh(e) && e.context == map[]
    ensures e != null ==> e.node == Traceable.WrapSkip(err, skip + 1, msg, stack, isGlobal)
  {
    if err.None? {
      return null;
    }
    e := new ContextableError(Traceable.WrapSkip(err, skip + 1, msg, stack, isGlobal));
  }

  /** `Wrap`: `WrapSkip` with nothing to skip. */
  method Wrap(err: Option<Error>, msg: string, stack: seq<PC>, isGlobal: seq<PC> -> bool)
    returns (e: ContextableError?)
    ensures err.None? <==> e == null
    ensures e != null ==> fresh(e) && e.context == map[]
    ensures e != null ==> e.node == Traceable.WrapSkip(err, 1, msg, stack, isGlobal)
  {
    e := WrapSkip(err, 0, msg, stack, isGlobal);
  }

  /** `GetContext`: a contexter's own map, nil for anything else. */
  function GetContext(err: Option<Error>): (r: Option<map<string, Value>>)
    ensures r.Some? <==> err.Some? && err.value.context.Some?
    ensures r.Some? ==> r.value == Contexts(err)[0]
  {
    if err.Some? && err.value.context.Some? then err.value.context else None
  }

  /** `Context` gives only the node's own map, not the entries of the errors it wraps. */
  lemma ContextIsOwn(e: ContextableError)
    ensures GetContext(Some(e.AsError())) == Some(e.context)
  {
  }

  /**
   * `GetFullContext`, with the nil map the recursive call yields for a cause
   * without context replaced by a fresh map; as written, it panics for a
   * node with context over such a cause (ContextMaps.ContextOverPlainErrorPanics).
   */
  method GetFullContext(err: Option<Error>) returns (ctx: Option<map<string, Value>>)
    ensures ctx == ContextMaps.FullContext(err)
    decreases Depth(err)
  {
    if err.None? {
      return Some(map[]);
    }
    var inner := GetFullContext(Unwrap(err));
    var m: map<string, Value> := if inner.None? then map[] else inner.value;
    if err.value.context.Some? {
      m := StoreAll(m, err.value.context.value);
    }
    assert m == Merged(err);
    if |m| == 0 {
      return None;
    }
    return Some(m);
  }
}
