// The key/value context the contextable errors carry, and how the contexts
// along a chain combine. Every generation of the context errors updates a
// Go `map[string]any`; here that is a `map<string, Value>` in which a Go nil
// value is `Nil`.
module ContextMaps {
  import opened Chain
  import Text

  /** What a node contributes to a combined context: its own map, nothing for a node without one. */
  function OwnContext(e: Error): map<string, Value>
  {
    if e.context.Some? then e.context.value else map[]
  }

  /** The contexts of a chain's nodes, outermost first. */
  function Contexts(err: Option<Error>): (r: seq<map<string, Value>>)
    ensures |r| == Depth(err)
    ensures forall i :: 0 <= i < |r| ==> r[i] == OwnContext(Nodes(err)[i])
  {
    var nodes := Nodes(err);
    seq(|nodes|, i requires 0 <= i < |nodes| => OwnContext(nodes[i]))
  }

  /**
   * The contexts of a chain merged from the innermost node outwards, each
   * node's entries overwriting those of the nodes it wraps.
   */
  function Merged(err: Option<Error>): map<string, Value>
    decreases Depth(err)
  {
    if err.None? then map[] else Merged(Unwrap(err)) + OwnContext(err.value)
  }

  /** The reference reading: the value of the first map, outermost first, that holds the key. */
  function Lookup(cs: seq<map<string, Value>>, k: string): (r: Option<Value>)
    ensures r.Some? <==> exists i :: 0 <= i < |cs| && k in cs[i]
  {
    if |cs| == 0 then None
    else if k in cs[0] then Some(cs[0][k])
    else
      var r := Lookup(cs[1..], k);
      assert forall i :: 1 <= i < |cs| ==> cs[i] == cs[1..][i - 1];
      r
  }

  /** A merged context holds exactly the keys some node holds, each with the outermost node's value. */
  lemma {:induction false} MergedIsOutermost(err: Option<Error>, k: string)
    ensures k in Merged(err) <==> Lookup(Contexts(err), k).Some?
    ensures k in Merged(err) ==> Merged(err)[k] == Lookup(Contexts(err), k).value
    decreases Depth(err)
  {
    if err.Some? {
      MergedIsOutermost(Unwrap(err), k);
      var cs := Contexts(err);
      assert Nodes(err) == [err.value] + Nodes(Unwrap(err));
      assert cs[1..] == Contexts(Unwrap(err));
    }
  }

  /** Peeling the outermost node off a merge that continues into an accumulator. */
  lemma MergedPeel(cur: Option<Error>, acc: map<string, Value>)
    requires cur.Some?
    ensures Merged(cur) + acc == Merged(Unwrap(cur)) + (OwnContext(cur.value) + acc)
    ensures cur.value.context.None? ==> OwnContext(cur.value) + acc == acc
  {
    UnionAssoc(Merged(Unwrap(cur)), OwnContext(cur.value), acc);
    assert cur.value.context.None? ==> (OwnContext(cur.value) + acc).Keys == acc.Keys;
  }

  /** The empty map is neutral on either side. */
  lemma UnionEmpty(m: map<string, Value>)
    ensures map[] + m == m && m + map[] == m
  {
    assert (map[] + m).Keys == m.Keys;
    assert (m + map[]).Keys == m.Keys;
  }

  /** Merging into an accumulator that already holds the outer entries keeps those. */
  lemma UnionAssoc(a: map<string, Value>, b: map<string, Value>, c: map<string, Value>)
    ensures (a + b) + c == a + (b + c)
  {
  }

  /** `m` with only the keys of `keys`. */
  function Restrict(m: map<string, Value>, keys: set<string>): map<string, Value>
  {
    map k | k in m && k in keys :: m[k]
  }

  // ---- the first two generations: a nil value removes a key ------------------------

  /** The context after `Add(key, value)`: a nil value removes the key, any other sets it. */
  function Added(c: map<string, Value>, key: string, value: Value): (r: map<string, Value>)
    ensures key in r <==> !value.Nil?
    ensures key in r ==> r[key] == value
    ensures forall k :: k != key ==> (k in r <==> k in c)
    ensures forall k :: k != key && k in r ==> r[k] == c[k]
  {
    if value.Nil? then c - {key} else c[key := value]
  }

  /**
   * The context after `AddAll(ctx)`: every key of `ctx` is decided by its
   * value there (removed when nil, set otherwise), every other key is kept.
   */
  function AddedAll(c: map<string, Value>, ctx: map<string, Value>): (r: map<string, Value>)
    ensures forall k :: k in ctx ==> (k in r <==> !ctx[k].Nil?)
    ensures forall k :: k in ctx && k in r ==> r[k] == ctx[k]
    ensures forall k :: k !in ctx ==> (k in r <==> k in c)
    ensures forall k :: k !in ctx && k in r ==> r[k] == c[k]
  {
    map k | k in c.Keys + ctx.Keys && (k !in ctx || !ctx[k].Nil?) :: if k in ctx then ctx[k] else c[k]
  }

  /** `AddAll` is `Add` applied per entry: adding one more entry of `ctx` is one more `Add`, whatever the order. */
  lemma AddedAllStep(c: map<string, Value>, ctx: map<string, Value>, done: set<string>, key: string)
    requires key in ctx && key !in done
    ensures AddedAll(c, Restrict(ctx, done + {key})) == Added(AddedAll(c, Restrict(ctx, done)), key, ctx[key])
  {
    var l := AddedAll(c, Restrict(ctx, done + {key}));
    var r := Added(AddedAll(c, Restrict(ctx, done)), key, ctx[key]);
    assert forall k :: k in l <==> k in r;
  }

  lemma AddedAllEmpty(c: map<string, Value>, ctx: map<string, Value>)
    ensures AddedAll(c, Restrict(ctx, {})) == c
  {
    assert Restrict(ctx, {}) == map[];
  }

  /** `base` with the entries of `own` whose keys are in `done` stored over it. */
  function StoredOver(base: map<string, Value>, own: map<string, Value>, done: set<string>): map<string, Value>
  {
    base + Restrict(own, done)
  }

  /** Storing one more entry of `own` over `base`: one more store, and with all keys stored, `base + own`. */
  lemma MergeStep(base: map<string, Value>, own: map<string, Value>, done: set<string>, k: string)
    requires k in own && k !in done
    ensures StoredOver(base, own, done + {k}) == StoredOver(base, own, done)[k := own[k]]
  {
    var l := base + Restrict(own, done + {k});
    var r := (base + Restrict(own, done))[k := own[k]];
    assert l.Keys == r.Keys;
  }

  lemma StoredNone(base: map<string, Value>, own: map<string, Value>)
    ensures StoredOver(base, own, {}) == base
  {
    assert Restrict(own, {}) == map[];
  }

  lemma StoredAll(base: map<string, Value>, own: map<string, Value>)
    ensures StoredOver(base, own, own.Keys) == base + own
  {
    assert Restrict(own, own.Keys) == own;
  }

  lemma RestrictAll(ctx: map<string, Value>)
    ensures Restrict(ctx, ctx.Keys) == ctx
  {
  }

  /** The loop storing each entry of `own` into `m`: entries of `own` overwrite those of `m`. */
  method StoreAll(m: map<string, Value>, own: map<string, Value>) returns (r: map<string, Value>)
    ensures r == m + own
  {
    r := m;
    var rest := own.Keys;
    ghost var done: set<string> := {};
    StoredNone(m, own);
    while rest != {}
      invariant done + rest == own.Keys && done !! rest
      invariant r == StoredOver(m, own, done)
      decreases |rest|
    {
      var k :| k in rest;
      MergeStep(m, own, done, k);
      r := r[k := own[k]];
      rest := rest - {k};
      done := done + {k};
    }
    StoredAll(m, own);
  }

  /** A layer without context adds nothing: the merge passes through it to the errors it wraps. */
  lemma PlainLayerPassesThrough(outer: Error, inner: Error)
    requires outer.context.None? && outer.link == Unwraps(Some(inner))
    ensures FullContext(Some(outer)) == FullContext(Some(inner))
  {
    var m := Merged(Some(inner));
    assert OwnContext(outer) == map[];
    assert Unwrap(Some(outer)) == Some(inner);
    assert (m + map[]).Keys == m.Keys;
    assert Merged(Some(outer)) == m;
  }

  /** The result of `GetFullContext` in the first two generations: an empty map for nil, nil for a chain without context. */
  function FullContext(err: Option<Error>): (r: Option<map<string, Value>>)
    ensures err.None? ==> r == Some(map[])
    ensures err.Some? ==> (r.None? <==> Merged(err) == map[])
    ensures err.Some? && r.Some? ==> r.value == Merged(err)
  {
    if err.None? then Some(map[])
    else if |Merged(err)| == 0 then None
    else Some(Merged(err))
  }

  /** What `GetFullContext` as written does: panic, or return a map or nil. */
  datatype Outcome = Panics | Returns(ctx: Option<map<string, Value>>)

  /**
   * `GetFullContext` as written: the recursive call on the cause yields nil
   * for a non-nil cause without context, and storing the node's own entries
   * into that nil map then panics.
   */
  function FullContextAsWritten(err: Option<Error>): (r: Outcome)
    ensures err.None? ==> r == Returns(Some(map[]))
    ensures err.Some? && r.Returns? && r.ctx.Some? ==> |r.ctx.value| > 0
    decreases Depth(err)
  {
    if err.None? then Returns(Some(map[]))
    else
      match FullContextAsWritten(Unwrap(err))
      case Panics => Panics
      case Returns(inner) =>
        var own := OwnContext(err.value);
        if inner.None? && |own| > 0 then Panics
        else
          var ctx := (if inner.None? then map[] else inner.value) + own;
          if |ctx| == 0 then Returns(None) else Returns(Some(ctx))
  }

  /** Where the written code does not panic, it returns what the corrected one does. */
  lemma {:induction false} AsWrittenAgreesUnlessPanic(err: Option<Error>)
    ensures FullContextAsWritten(err).Returns? ==> FullContextAsWritten(err).ctx == FullContext(err)
    decreases Depth(err)
  {
    if err.Some? {
      AsWrittenAgreesUnlessPanic(Unwrap(err));
      if FullContextAsWritten(err).Returns? {
        var inner := FullContextAsWritten(Unwrap(err)).ctx;
        assert inner == FullContext(Unwrap(err));
        assert inner.None? ==> Merged(Unwrap(err)) == map[];
      }
    }
  }

  /**
   * A context error carrying entries that wraps a plain error (one without
   * context and without a cause, such as `errors.New("root")`): the merge
   * for the plain error is nil, and the written code panics where the
   * corrected one returns the outer node's entries.
   */
  lemma ContextOverPlainErrorPanics(outer: Error, plain: Error)
    requires outer.link == Unwraps(Some(plain)) && |OwnContext(outer)| > 0
    requires plain.link == NoUnwrap && plain.context.None?
    ensures FullContextAsWritten(Some(outer)) == Panics
    ensures FullContext(Some(outer)) == Some(OwnContext(outer))
  {
    assert Unwrap(Some(plain)) == None;
    assert Merged(Some(plain)) == map[];
    assert Merged(Some(outer)) == OwnContext(outer);
    assert FullContextAsWritten(Some(plain)) == Returns(None);
  }

  // ---- the third generation: outermost value kept ----------------------------------

  /** How `fmt.Sprint` prints a non-string key. */
  function Printed(v: Value): string
  {
    match v
    case Nil => "<nil>"
    case Str(s) => s
    case Int(i) => Text.Decimal(i)
    case Other(p) => p
  }

  /** The key a value given in a key position is stored under: the string itself, or its printed text. */
  function KeyOf(v: Value): (r: string)
    ensures v.Str? ==> r == v.s
  {
    if v.Str? then v.s else Printed(v)
  }

  /** The context after `Add(kv...)`: the pairs in order, a trailing unpaired key dropped. */
  function AddedPairs(c: map<string, Value>, kv: seq<Value>): map<string, Value>
    decreases |kv|
  {
    if |kv| < 2 then c else AddedPairs(c[KeyOf(kv[0]) := kv[1]], kv[2..])
  }

  /** One more pair at the end overwrites its key; a later pair wins over an earlier one. */
  lemma {:induction false} AddedPairsSnoc(c: map<string, Value>, kv: seq<Value>, k: Value, v: Value)
    requires |kv| % 2 == 0
    ensures AddedPairs(c, kv + [k, v]) == AddedPairs(c, kv)[KeyOf(k) := v]
    decreases |kv|
  {
    if |kv| >= 2 {
      assert (kv + [k, v])[2..] == kv[2..] + [k, v];
      AddedPairsSnoc(c[KeyOf(kv[0]) := kv[1]], kv[2..], k, v);
    } else {
      assert |kv| == 0;
      assert kv + [k, v] == [k, v];
      assert [k, v][2..] == [];
    }
  }

  /** A trailing key without a value changes nothing. */
  lemma {:induction false} AddedPairsDropsTrailingKey(c: map<string, Value>, kv: seq<Value>, k: Value)
    requires |kv| % 2 == 0
    ensures AddedPairs(c, kv + [k]) == AddedPairs(c, kv)
    decreases |kv|
  {
    if |kv| >= 2 {
      assert (kv + [k])[2..] == kv[2..] + [k];
      AddedPairsDropsTrailingKey(c[KeyOf(kv[0]) := kv[1]], kv[2..], k);
    }
  }

  /** A key no pair names keeps its old entry, or stays absent. */
  lemma {:induction false} AddedPairsKeepsOthers(c: map<string, Value>, kv: seq<Value>, key: string)
    requires forall i :: 0 <= i < |kv| - 1 && i % 2 == 0 ==> KeyOf(kv[i]) != key
    ensures key in AddedPairs(c, kv) <==> key in c
    ensures key in c ==> AddedPairs(c, kv)[key] == c[key]
    decreases |kv|
  {
    if |kv| >= 2 {
      assert forall i :: 0 <= i < |kv[2..]| - 1 && i % 2 == 0 ==> KeyOf(kv[2..][i]) == KeyOf(kv[i + 2]);
      AddedPairsKeepsOthers(c[KeyOf(kv[0]) := kv[1]], kv[2..], key);
    }
  }

  /** The context after `Remove(keys...)`: exactly the listed keys are gone. */
  function Removed(c: map<string, Value>, keys: seq<string>): (r: map<string, Value>)
    ensures forall k :: k in r <==> k in c && k !in keys
    ensures forall k :: k in r ==> r[k] == c[k]
  {
    c - (set i | 0 <= i < |keys| :: keys[i])
  }

  /** Removing one more key. */
  lemma RemovedSnoc(c: map<string, Value>, keys: seq<string>, k: string)
    ensures Removed(c, keys + [k]) == Removed(c, keys) - {k}
  {
    var l := Removed(c, keys + [k]);
    var r := Removed(c, keys) - {k};
    assert forall x :: x in keys + [k] <==> x in keys || x == k;
    assert l.Keys == r.Keys;
  }

  /** `acc` with the entries of `own` whose keys are in `done` added where `acc` has no entry yet. */
  function KeptUnder(acc: map<string, Value>, own: map<string, Value>, done: set<string>): map<string, Value>
  {
    Restrict(own, done) + acc
  }

  /** Keeping one more entry of `own`: a store when the key is new, nothing otherwise. */
  lemma KeepStep(acc: map<string, Value>, own: map<string, Value>, done: set<string>, k: string)
    requires k in own && k !in done
    ensures k in KeptUnder(acc, own, done) <==> k in acc
    ensures k in acc ==> KeptUnder(acc, own, done + {k}) == KeptUnder(acc, own, done)
    ensures k !in acc ==> KeptUnder(acc, own, done + {k}) == KeptUnder(acc, own, done)[k := own[k]]
  {
    var l := Restrict(own, done + {k}) + acc;
    var r := Restrict(own, done) + acc;
    assert k in acc ==> l.Keys == r.Keys;
    assert k !in acc ==> l.Keys == r[k := own[k]].Keys;
  }

  lemma KeptNone(acc: map<string, Value>, own: map<string, Value>)
    ensures KeptUnder(acc, own, {}) == acc
  {
    assert Restrict(own, {}) == map[];
  }

  lemma KeptAll(acc: map<string, Value>, own: map<string, Value>)
    ensures KeptUnder(acc, own, own.Keys) == own + acc
  {
    assert Restrict(own, own.Keys) == own;
  }

  /** The loop adding each entry of `own` that `acc` lacks: the entries already in `acc` win. */
  method KeepAll(acc: map<string, Value>, own: map<string, Value>) returns (r: map<string, Value>)
    ensures r == own + acc
  {
    r := acc;
    var rest := own.Keys;
    ghost var done: set<string> := {};
    KeptNone(acc, own);
    while rest != {}
      invariant done + rest == own.Keys && done !! rest
      invariant r == KeptUnder(acc, own, done)
      decreases |rest|
    {
      var k :| k in rest;
      KeepStep(acc, own, done, k);
      if k !in r {
        r := r[k := own[k]];
      }
      rest := rest - {k};
      done := done + {k};
    }
    KeptAll(acc, own);
  }

  // ---- what `IterContext` hands to its callback --------------------------------------

  /** No key is handed over twice. */
  predicate DistinctKeys(calls: seq<(string, Value)>)
  {
    forall i, j :: 0 <= i < j < |calls| ==> calls[i].0 != calls[j].0
  }

  /** Every pair handed over is an entry of `m`. */
  predicate Agrees(calls: seq<(string, Value)>, m: map<string, Value>)
  {
    forall i :: 0 <= i < |calls| ==> calls[i].0 in m && m[calls[i].0] == calls[i].1
  }

  /** Every key of `m` was handed over. */
  predicate Covers(calls: seq<(string, Value)>, m: map<string, Value>)
  {
    forall k :: k in m ==> exists i :: 0 <= i < |calls| && calls[i].0 == k
  }

  /** The callback asked to go on after every pair. */
  predicate AllAccepted(calls: seq<(string, Value)>, visit: (string, Value) -> bool)
  {
    forall i :: 0 <= i < |calls| ==> visit(calls[i].0, calls[i].1)
  }

  /** Handing over one more pair, for a key not handed over yet. */
  lemma HandOver(calls: seq<(string, Value)>, m: map<string, Value>, k: string, v: Value, visit: (string, Value) -> bool)
    requires DistinctKeys(calls) && Agrees(calls, m) && Covers(calls, m) && k !in m
    ensures DistinctKeys(calls + [(k, v)]) && Agrees(calls + [(k, v)], m[k := v]) && Covers(calls + [(k, v)], m[k := v])
    ensures AllAccepted(calls, visit) && visit(k, v) ==> AllAccepted(calls + [(k, v)], visit)
    ensures (calls + [(k, v)])[..|calls|] == calls
  {
    var c := calls + [(k, v)];
    assert c[|calls|] == (k, v);
    assert forall i :: 0 <= i < |calls| ==> c[i] == calls[i];
  }

  /** Pairs that agree with a map agree with any map holding its entries. */
  lemma AgreesWider(calls: seq<(string, Value)>, m: map<string, Value>, w: map<string, Value>)
    requires Agrees(calls, m)
    requires forall k :: k in m ==> k in w && w[k] == m[k]
    ensures Agrees(calls, w)
  {
  }

  /** Part of `own` kept under `acc` is part of `own + acc`. */
  lemma KeptWithin(acc: map<string, Value>, own: map<string, Value>, done: set<string>)
    ensures forall k :: k in KeptUnder(acc, own, done) ==> k in own + acc && (own + acc)[k] == KeptUnder(acc, own, done)[k]
  {
  }

  /** Pairs that agree with `b` agree with any merge in which `b` has the last word. */
  lemma AgreesUnder(calls: seq<(string, Value)>, a: map<string, Value>, b: map<string, Value>)
    requires Agrees(calls, b)
    ensures Agrees(calls, a + b)
  {
  }
}
