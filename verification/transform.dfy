/** The transform engine (`src/transform.ts`).

    `transform` walks a configuration like `traverse` does and rewrites it
    with an ordered list of transformers. A transformer is a pure function
    here; returning `None` stands for returning `undefined`, which removes
    the directive or the block instance. The result is built by value: the
    source's copy-on-write only decides which objects are fresh, and a copy
    followed by the same assignments holds the same value.

    Pre-order block transformers may return a larger context than they were
    given, so nothing bounds the recursion but the host's call stack. The
    model makes that bound a parameter, `depthLimit`, the number of nested
    contexts the walk may enter; going deeper raises the `RangeError` the
    host raises when its stack runs out.
 */
module Transform {

  import opened Wrappers
  import opened Tree
  import opened Utils
  import opened Errors
  import opened ContextName
  import opened DirectiveTypes
  import Traverse

  type Param = Traverse.Param

  datatype Order = Pre | Post

  /** The `name` of a transformer: absent, one name, or a list of names. */
  datatype NameFilter = AnyName | Name(name: string) | Names(names: seq<string>)

  datatype Transformer =
      /** `block: false` (or no `block` at all): applies to simple and
          nullary directives; `guard` is `if`, `rewrite` is `transform`. */
    | SimpleTransformer(
        names: NameFilter,
        contexts: Option<seq<string>>,
        valueGuard: (Value, string, string) -> bool,
        valueRewrite: (Value, string, string) -> Option<Value>)
      /** `block: true`: applies to every instance of a block directive. */
    | BlockTransformer(
        names: NameFilter,
        contexts: Option<seq<string>>,
        order: Order,
        blockGuard: (Context, string, Param, string) -> bool,
        blockRewrite: (Context, string, Param, string) -> Option<Context>)

  /** `arrify(t.name ?? '')`: a transformer without a name lands in the
      bucket of the empty name. */
  function NameList(f: NameFilter): seq<string> {
    match f
    case AnyName => [""]
    case Name(n) => [n]
    case Names(ns) => ns
  }

  function Prefix(isBlock: bool): string {
    if isBlock then "+" else "-"
  }

  /** The bucket keys of a transformer: `'+'` or `'-'`, then each name. */
  function BucketKeys(t: Transformer): (ks: seq<string>)
    ensures |ks| == |NameList(t.names)|
    ensures forall i :: 0 <= i < |ks| ==> ks[i] == Prefix(t.BlockTransformer?) + NameList(t.names)[i]
  {
    var ns := NameList(t.names);
    seq(|ns|, i requires 0 <= i < |ns| => Prefix(t.BlockTransformer?) + ns[i])
  }

  lemma BucketKeyKind(t: Transformer, k: string)
    requires k in BucketKeys(t)
    ensures |k| >= 1 && (k[0] == '+' <==> t.BlockTransformer?)
  {
    var i :| 0 <= i < |BucketKeys(t)| && BucketKeys(t)[i] == k;
  }

  /** Every transformer sits only in buckets named by its own keys. */
  predicate WellBucketed(byName: map<string, seq<Transformer>>) {
    forall k, j :: k in byName && 0 <= j < |byName[k]| ==> k in BucketKeys(byName[k][j])
  }

  /** `transformersByName`, the grouping built once per call. */
  function Buckets(transformers: seq<Transformer>): (byName: map<string, seq<Transformer>>)
    ensures WellBucketed(byName)
  {
    var byName := GroupBy(transformers, BucketKeys);
    GroupByContents(transformers, BucketKeys);
    forall k | k in byName
      ensures forall j :: 0 <= j < |byName[k]| ==> k in BucketKeys(byName[k][j])
    {
      GroupMembersHaveKey(transformers, BucketKeys, k);
      assert byName[k] == GetOr(byName, k);
    }
    byName
  }

  /** `trans.context?.includes(context) !== false` */
  predicate AppliesIn(t: Transformer, context: string) {
    t.contexts.None? || context in t.contexts.value
  }

  /** The transformers of one bucket that apply in `context`, in order. */
  function SelectIn(ts: seq<Transformer>, context: string): (r: seq<Transformer>)
    ensures |r| <= |ts|
    ensures IsSubsequence(r, ts)
    ensures forall t :: t in r <==> t in ts && AppliesIn(t, context)
    ensures forall j :: 0 <= j < |r| ==> AppliesIn(r[j], context)
    ensures (forall i :: 0 <= i < |ts| ==> ts[i].SimpleTransformer?) ==>
              (forall j :: 0 <= j < |r| ==> r[j].SimpleTransformer?)
    ensures (forall i :: 0 <= i < |ts| ==> ts[i].BlockTransformer?) ==>
              (forall j :: 0 <= j < |r| ==> r[j].BlockTransformer?)
  {
    if |ts| == 0 then []
    else
      var rest := SelectIn(ts[1..], context);
      assert ts == [ts[0]] + ts[1..];
      if AppliesIn(ts[0], context) then
        assert ([ts[0]] + rest)[1..] == rest;
        [ts[0]] + rest
      else
        assert |rest| > 0 ==> IsSubsequence(rest, ts);
        rest
  }

  /** `eachTransformer(directiveName, context, isBlock)`: the transformers
      named for the directive, then the unnamed ones, each group in
      declaration order, keeping those whose context list admits `context`.
      A block query yields block transformers only, a simple query simple
      ones only. */
  function EachTransformer(byName: map<string, seq<Transformer>>, directiveName: string,
                           context: string, isBlock: bool): (r: seq<Transformer>)
    requires WellBucketed(byName)
    ensures forall j :: 0 <= j < |r| ==> AppliesIn(r[j], context) && r[j].BlockTransformer? == isBlock
  {
    var named := GetOr(byName, Prefix(isBlock) + directiveName);
    var unnamed := GetOr(byName, Prefix(isBlock));
    forall j | 0 <= j < |named| ensures named[j].BlockTransformer? == isBlock {
      BucketKeyKind(named[j], Prefix(isBlock) + directiveName);
    }
    forall j | 0 <= j < |unnamed| ensures unnamed[j].BlockTransformer? == isBlock {
      BucketKeyKind(unnamed[j], Prefix(isBlock));
    }
    SelectIn(named, context) + SelectIn(unnamed, context)
  }

  /** The chain of a simple or nullary directive: each transformer whose
      `if` holds rewrites the current value; `undefined` ends the chain and
      removes the directive, `null` is an ordinary value. */
  function RunSimple(chain: seq<Transformer>, value: Value, name: string, context: string): (r: Option<Value>)
    requires forall i :: 0 <= i < |chain| ==> chain[i].SimpleTransformer?
    ensures (forall i :: 0 <= i < |chain| ==> !chain[i].valueGuard(value, name, context)) ==> r == Some(value)
  {
    if |chain| == 0 then Some(value)
    else
      var t := chain[0];
      var next := if t.valueGuard(value, name, context) then t.valueRewrite(value, name, context) else Some(value);
      if next.None? then None else RunSimple(chain[1..], next.value, name, context)
  }

  /** One phase of the block chain of an instance: the transformers of
      that `order` whose `if` holds rewrite the current context; a removal
      ends the chain. */
  function RunBlock(chain: seq<Transformer>, phase: Order, obj: Context, name: string,
                    param: Param, parent: string): (r: Option<Context>)
    requires forall i :: 0 <= i < |chain| ==> chain[i].BlockTransformer?
    ensures (forall i :: 0 <= i < |chain| ==> chain[i].order != phase) ==> r == Some(obj)
  {
    if |chain| == 0 then Some(obj)
    else
      var t := chain[0];
      var next := if t.order == phase && t.blockGuard(obj, name, param, parent)
                  then t.blockRewrite(obj, name, param, parent) else Some(obj);
      if next.None? then None else RunBlock(chain[1..], phase, next.value, name, param, parent)
  }

  /** What every recursive step needs: the classifier and the buckets. */
  datatype Env = Env(resolve: Resolver, byName: map<string, seq<Transformer>>)

  /** `visit(name, value, path)`: the new value of a directive, `None` when
      it is removed. A block without parameter always comes back as an
      array, even when it was a single object. */
  function Visit(env: Env, depthLimit: nat, name: string, value: Value, path: seq<string>): (r: Result<Option<Value>, Error>)
    requires WellBucketed(env.byName)
    ensures r.Ok? && env.resolve(path + [name], value) == Ok(BlockWithoutParam) ==>
              r.value.Some? && r.value.value.Arr?
    ensures r.Ok? && env.resolve(path + [name], value) == Ok(BlockWithParam) ==>
              r.value.Some? && r.value.value.Obj?
    decreases depthLimit, Size(value), 2
  {
    var kind :- env.resolve(path + [name], value);
    match kind
    case BlockWithoutParam =>
      var contexts := Arrify(value);
      Traverse.ArrifySize(value);
      var kept :- VisitIndexed(env, depthLimit, name, contexts, 0, path);
      Ok(Some(Arr(kept)))
    case BlockWithParam =>
      if !value.Obj? then Err(UnsupportedInstance(path + [name], value))
      else
        var entries :- VisitKeyed(env, depthLimit, name, value.fields, path);
        Ok(Some(Obj(entries)))
    case _ =>
      var context := LastOr(path, "");
      Ok(RunSimple(EachTransformer(env.byName, name, context, false), value, name, context))
  }

  /** The instances of a block without parameter: survivors in their
      original order, removed ones left out; `start` is the original index
      of the first one. */
  function VisitIndexed(env: Env, depthLimit: nat, name: string, contexts: seq<Value>,
                        start: nat, path: seq<string>): (r: Result<seq<Value>, Error>)
    requires WellBucketed(env.byName)
    ensures r.Ok? ==> |r.value| <= |contexts|
    ensures r.Ok? ==> forall i :: 0 <= i < |r.value| ==> r.value[i].Obj?
    decreases depthLimit, ItemsSize(contexts), 1
  {
    if |contexts| == 0 then Ok([])
    else
      var first :- VisitContext(env, depthLimit, name, Traverse.Index(start), contexts[0], path);
      var rest :- VisitIndexed(env, depthLimit, name, contexts[1..], start + 1, path);
      Ok((if first.Some? then [Obj(first.value)] else []) + rest)
  }

  /** The instances of a block with parameter: removed keys are deleted,
      the others keep their position. */
  function VisitKeyed(env: Env, depthLimit: nat, name: string, contexts: Context,
                      path: seq<string>): (r: Result<Context, Error>)
    requires WellBucketed(env.byName)
    ensures r.Ok? ==> IsSubsequence(Keys(r.value), Keys(contexts))
    ensures r.Ok? ==> forall i :: 0 <= i < |r.value| ==> r.value[i].value.Obj?
    decreases depthLimit, FieldsSize(contexts), 1
  {
    if |contexts| == 0 then Ok([])
    else
      var first :- VisitContext(env, depthLimit, name, Traverse.Key(contexts[0].key), contexts[0].value, path);
      var rest :- VisitKeyed(env, depthLimit, name, contexts[1..], path);
      var kept := if first.Some? then [Field(contexts[0].key, Obj(first.value))] else [];
      KeepOrDropFirst(contexts, kept, rest);
      Ok(kept + rest)
  }

  /** `visitContext(name, param, contextObj, path)`: pre-order transformers,
      then the children, then post-order transformers; a falsy instance or
      a removal yields `None` and its children are not visited. */
  function VisitContext(env: Env, depthLimit: nat, name: string, param: Param, instance: Value,
                        path: seq<string>): (r: Result<Option<Context>, Error>)
    requires WellBucketed(env.byName)
    ensures Falsy(instance) && depthLimit > 0 ==> r == Ok(None)
    decreases depthLimit, Size(instance), 0
  {
    if depthLimit == 0 then Err(RangeError("Maximum call stack size exceeded"))
    else if Falsy(instance) then Ok(None)
    else if !instance.Obj? then Err(UnsupportedInstance(path + [name], instance))
    else
      var parent := LastOr(path, "");
      var chain := EachTransformer(env.byName, name, parent, true);
      match RunBlock(chain, Pre, instance.fields, name, param, parent)
      case None => Ok(None)
      case Some(obj) =>
        var body :- VisitEntries(env, depthLimit - 1, obj, path + [name]);
        Ok(RunBlock(chain, Post, body, name, param, parent))
  }

  /** The children of a context: an unchanged or rewritten value stays at
      its key's position, a removed one is deleted. */
  function VisitEntries(env: Env, depthLimit: nat, fields: Context, path: seq<string>): (r: Result<Context, Error>)
    requires WellBucketed(env.byName)
    ensures r.Ok? ==> IsSubsequence(Keys(r.value), Keys(fields))
    decreases depthLimit, FieldsSize(fields), 1
  {
    if |fields| == 0 then Ok([])
    else
      var first :- Visit(env, depthLimit, fields[0].key, fields[0].value, path);
      var rest :- VisitEntries(env, depthLimit, fields[1..], path);
      var kept := if first.Some? then [Field(fields[0].key, first.value)] else [];
      KeepOrDropFirst(fields, kept, rest);
      Ok(kept + rest)
  }

  /** Keeping or dropping the first field, then a subsequence of the rest,
      is a subsequence of the keys. */
  lemma KeepOrDropFirst(fields: Context, kept: Context, rest: Context)
    requires |fields| > 0
    requires IsSubsequence(Keys(rest), Keys(fields[1..]))
    requires kept == [] || (|kept| == 1 && kept[0].key == fields[0].key)
    ensures IsSubsequence(Keys(kept + rest), Keys(fields))
  {
    assert Keys(fields)[1..] == Keys(fields[1..]);
    if kept == [] {
      assert kept + rest == rest;
    } else {
      assert Keys(kept + rest)[1..] == Keys(rest);
    }
  }

  /** `transform(context, input, transformers, state, opts)`: the new
      top-level context, `None` when a transformer removed it. */
  function Transform(resolve: Resolver, transformers: seq<Transformer>, context: ContextRef,
                     input: Context, depthLimit: nat): Result<Option<Context>, Error>
  {
    var root := SplitRoot(ResolvePath(context));
    VisitContext(Env(resolve, Buckets(transformers)), depthLimit, root.1, Traverse.Index(0), Obj(input), root.0)
  }
}
