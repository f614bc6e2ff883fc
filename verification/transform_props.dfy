/** Properties of the transform engine.

    Three groups: which transformers run on a directive and in what order
    (a reference definition in declaration order), how a chain composes,
    and what `transform` does with no transformers at all: it puts a tree
    into canonical form (every parameterless block an array of objects,
    falsy instances dropped), leaves a canonical tree unchanged, and is
    therefore idempotent.
 */
module TransformProps {

  import opened Wrappers
  import opened Tree
  import opened Utils
  import opened Errors
  import opened ContextName
  import opened DirectiveTypes
  import opened Transform

  // ---------------------------------------------------------------------
  // Selecting the transformers of a directive
  // ---------------------------------------------------------------------

  /** Reference definition: the transformers of the kind asked for whose
      name list holds `name`, in declaration order, each as many times as
      `name` occurs in its list. */
  function Declared(ts: seq<Transformer>, name: string, isBlock: bool): seq<Transformer> {
    if |ts| == 0 then []
    else
      var t := ts[|ts| - 1];
      Declared(ts[..|ts| - 1], name, isBlock)
      + RepeatItem(t, if t.BlockTransformer? == isBlock then Count(NameList(t.names), name) else 0)
  }

  /** A one-character prefix keeps bucket keys of the two kinds apart. */
  lemma {:induction false} CountPrefixed(ks: seq<string>, ns: seq<string>, p: string, q: string, name: string)
    requires |p| == 1 && |q| == 1 && |ks| == |ns|
    requires forall i :: 0 <= i < |ks| ==> ks[i] == p + ns[i]
    ensures Count(ks, q + name) == if p == q then Count(ns, name) else 0
  {
    if |ks| > 0 {
      CountPrefixed(ks[1..], ns[1..], p, q, name);
      if ks[0] == q + name {
        assert ks[0][0] == p[0] && (q + name)[0] == q[0];
        assert ks[0][1..] == ns[0] && (q + name)[1..] == name;
      }
      if p == q && ns[0] == name {
        assert ks[0] == q + name;
      }
    }
  }

  lemma CountBucketKeys(t: Transformer, name: string, isBlock: bool)
    ensures Count(BucketKeys(t), Prefix(isBlock) + name)
            == if t.BlockTransformer? == isBlock then Count(NameList(t.names), name) else 0
  {
    CountPrefixed(BucketKeys(t), NameList(t.names), Prefix(t.BlockTransformer?), Prefix(isBlock), name);
  }

  /** The bucket of a prefixed name is the reference selection. */
  lemma {:induction false} DeclaredIsGroup(ts: seq<Transformer>, name: string, isBlock: bool)
    ensures Group(ts, BucketKeys, Prefix(isBlock) + name) == Declared(ts, name, isBlock)
  {
    if |ts| > 0 {
      DeclaredIsGroup(ts[..|ts| - 1], name, isBlock);
      CountBucketKeys(ts[|ts| - 1], name, isBlock);
    }
  }

  /** A transformer is selected for `name` exactly when it is declared,
      has the kind asked for and lists `name`. */
  lemma {:induction false} DeclaredMembers(ts: seq<Transformer>, name: string, isBlock: bool, t: Transformer)
    ensures t in Declared(ts, name, isBlock)
            <==> t in ts && t.BlockTransformer? == isBlock && name in NameList(t.names)
  {
    if |ts| > 0 {
      var init := ts[..|ts| - 1];
      var last := ts[|ts| - 1];
      DeclaredMembers(init, name, isBlock, t);
      CountPositive(NameList(last.names), name);
      assert ts == init + [last];
      var n := if last.BlockTransformer? == isBlock then Count(NameList(last.names), name) else 0;
      if t == last && last.BlockTransformer? == isBlock && name in NameList(last.names) {
        assert RepeatItem(last, n)[0] == t;
      }
    }
  }

  /** `eachTransformer` yields the transformers declared for the directive's
      name, then those declared without a name, each group in declaration
      order and filtered by context. */
  lemma EachTransformerDeclared(ts: seq<Transformer>, name: string, context: string, isBlock: bool)
    ensures EachTransformer(Buckets(ts), name, context, isBlock)
            == SelectIn(Declared(ts, name, isBlock), context) + SelectIn(Declared(ts, "", isBlock), context)
  {
    var byName := Buckets(ts);
    assert byName == GroupBy(ts, BucketKeys);
    GroupByContents(ts, BucketKeys);
    DeclaredIsGroup(ts, name, isBlock);
    DeclaredIsGroup(ts, "", isBlock);
    assert Prefix(isBlock) + "" == Prefix(isBlock);
    assert GetOr(byName, Prefix(isBlock) + name) == Declared(ts, name, isBlock);
    assert GetOr(byName, Prefix(isBlock)) == Declared(ts, "", isBlock);
  }

  /** Which transformers run on a directive: the declared ones of the right
      kind whose context list admits the context and that either list the
      directive's name or have no name. */
  lemma EachTransformerMembers(ts: seq<Transformer>, name: string, context: string, isBlock: bool, t: Transformer)
    ensures t in EachTransformer(Buckets(ts), name, context, isBlock)
            <==> t in ts && t.BlockTransformer? == isBlock && AppliesIn(t, context)
                 && (name in NameList(t.names) || "" in NameList(t.names))
  {
    EachTransformerDeclared(ts, name, context, isBlock);
    DeclaredMembers(ts, name, isBlock, t);
    DeclaredMembers(ts, "", isBlock, t);
  }

  /** A directive whose name is the empty string meets an unnamed
      transformer twice: once through its own bucket and once as an
      unnamed transformer. */
  lemma UnnamedTwiceForEmptyName(t: Transformer, context: string)
    requires t.names == AnyName && AppliesIn(t, context)
    ensures EachTransformer(Buckets([t]), "", context, t.BlockTransformer?) == [t, t]
  {
    var b := t.BlockTransformer?;
    EachTransformerDeclared([t], "", context, b);
    assert Declared([t], "", b) == [t] by {
      assert Count(NameList(t.names), "") == 1;
      assert RepeatItem(t, 1) == [t];
      assert [t][..0] == [];
      assert Declared([], "", b) == [];
    }
    assert SelectIn([t], context) == [t] by {
      assert [t][1..] == [];
      assert SelectIn([], context) == [];
    }
  }

  // ---------------------------------------------------------------------
  // Chains
  // ---------------------------------------------------------------------

  /** Running a chain in two parts is running the second on the result of
      the first; once a transformer removes the directive nothing else runs. */
  lemma {:induction false} RunSimpleAppend(a: seq<Transformer>, b: seq<Transformer>, value: Value,
                                           name: string, context: string)
    requires forall i :: 0 <= i < |a| ==> a[i].SimpleTransformer?
    requires forall i :: 0 <= i < |b| ==> b[i].SimpleTransformer?
    ensures forall i :: 0 <= i < |a + b| ==> (a + b)[i].SimpleTransformer?
    ensures RunSimple(a + b, value, name, context)
            == match RunSimple(a, value, name, context)
               case None => None
               case Some(w) => RunSimple(b, w, name, context)
  {
    if |a| == 0 {
      assert a + b == b;
    } else {
      assert (a + b)[1..] == a[1..] + b;
      var t := a[0];
      var next := if t.valueGuard(value, name, context) then t.valueRewrite(value, name, context) else Some(value);
      if next.Some? {
        RunSimpleAppend(a[1..], b, next.value, name, context);
      }
    }
  }

  /** A transformer whose `if` rejects the value leaves it to the next. */
  lemma RunSimpleGuarded(t: Transformer, rest: seq<Transformer>, value: Value, name: string, context: string)
    requires t.SimpleTransformer? && !t.valueGuard(value, name, context)
    requires forall i :: 0 <= i < |rest| ==> rest[i].SimpleTransformer?
    ensures forall i :: 0 <= i < |[t] + rest| ==> ([t] + rest)[i].SimpleTransformer?
    ensures RunSimple([t] + rest, value, name, context) == RunSimple(rest, value, name, context)
  {
    assert ([t] + rest)[1..] == rest;
  }

  lemma {:induction false} RunBlockAppend(a: seq<Transformer>, b: seq<Transformer>, phase: Order, obj: Context,
                                          name: string, param: Param, parent: string)
    requires forall i :: 0 <= i < |a| ==> a[i].BlockTransformer?
    requires forall i :: 0 <= i < |b| ==> b[i].BlockTransformer?
    ensures forall i :: 0 <= i < |a + b| ==> (a + b)[i].BlockTransformer?
    ensures RunBlock(a + b, phase, obj, name, param, parent)
            == match RunBlock(a, phase, obj, name, param, parent)
               case None => None
               case Some(o) => RunBlock(b, phase, o, name, param, parent)
  {
    if |a| == 0 {
      assert a + b == b;
    } else {
      assert (a + b)[1..] == a[1..] + b;
      var t := a[0];
      var next := if t.order == phase && t.blockGuard(obj, name, param, parent)
                  then t.blockRewrite(obj, name, param, parent) else Some(obj);
      if next.Some? {
        RunBlockAppend(a[1..], b, phase, next.value, name, param, parent);
      }
    }
  }

  /** The transformers of one order, in chain order. */
  function OfOrder(chain: seq<Transformer>, phase: Order): (r: seq<Transformer>)
    requires forall i :: 0 <= i < |chain| ==> chain[i].BlockTransformer?
    ensures forall i :: 0 <= i < |r| ==> r[i].BlockTransformer? && r[i].order == phase
    ensures IsSubsequence(r, chain)
  {
    if |chain| == 0 then []
    else if chain[0].order == phase then [chain[0]] + OfOrder(chain[1..], phase)
    else
      var rest := OfOrder(chain[1..], phase);
      assert |rest| == 0 || IsSubsequence(rest, chain[1..]);
      rest
  }

  /** A phase sees only the transformers of its own order. */
  lemma {:induction false} RunBlockPhase(chain: seq<Transformer>, phase: Order, obj: Context,
                                         name: string, param: Param, parent: string)
    requires forall i :: 0 <= i < |chain| ==> chain[i].BlockTransformer?
    ensures RunBlock(chain, phase, obj, name, param, parent)
            == RunBlock(OfOrder(chain, phase), phase, obj, name, param, parent)
  {
    if |chain| > 0 {
      var t := chain[0];
      if t.order == phase {
        var next := if t.blockGuard(obj, name, param, parent) then t.blockRewrite(obj, name, param, parent) else Some(obj);
        var sel := OfOrder(chain, phase);
        assert sel[0] == t && sel[1..] == OfOrder(chain[1..], phase);
        if next.Some? {
          RunBlockPhase(chain[1..], phase, next.value, name, param, parent);
        }
      } else {
        RunBlockPhase(chain[1..], phase, obj, name, param, parent);
      }
    }
  }

  // ---------------------------------------------------------------------
  // Rebuilding a body from the outcomes of its children
  // ---------------------------------------------------------------------

  /** Reference definition of a rebuilt body: a child whose outcome is
      `None` is deleted, any other takes its new value at its old position. */
  function Rebuilt(fields: Context, outs: seq<Option<Value>>): (r: Context)
    requires |outs| == |fields|
    ensures |r| <= |fields|
  {
    if |fields| == 0 then []
    else (if outs[0].Some? then [Field(fields[0].key, outs[0].value)] else []) + Rebuilt(fields[1..], outs[1..])
  }

  /** The instances that survive, as objects, in their original order. */
  function Survivors(outs: seq<Option<Context>>): (r: seq<Value>)
    ensures |r| <= |outs|
  {
    if |outs| == 0 then []
    else (if outs[0].Some? then [Obj(outs[0].value)] else []) + Survivors(outs[1..])
  }

  function AsValues(outs: seq<Option<Context>>): (r: seq<Option<Value>>)
    ensures |r| == |outs|
    ensures forall i :: 0 <= i < |outs| ==> r[i] == if outs[i].Some? then Some(Obj(outs[i].value)) else None
  {
    if |outs| == 0 then [] else [if outs[0].Some? then Some(Obj(outs[0].value)) else None] + AsValues(outs[1..])
  }

  /** The children of a context, each visited once in key order, are put
      back by the reference rule. */
  lemma {:induction false} EntriesRebuilt(env: Env, depthLimit: nat, fields: Context, path: seq<string>,
                                          outs: seq<Option<Value>>)
    requires WellBucketed(env.byName) && |outs| == |fields|
    requires forall i :: 0 <= i < |fields| ==>
               Transform.Visit(env, depthLimit, fields[i].key, fields[i].value, path) == Ok(outs[i])
    ensures VisitEntries(env, depthLimit, fields, path) == Ok(Rebuilt(fields, outs))
  {
    if |fields| > 0 {
      assert Transform.Visit(env, depthLimit, fields[0].key, fields[0].value, path) == Ok(outs[0]);
      EntriesRebuilt(env, depthLimit, fields[1..], path, outs[1..]);
    }
  }

  /** Children that all come back unchanged leave the body as it was. */
  lemma {:induction false} EntriesUnchanged(env: Env, depthLimit: nat, fields: Context, path: seq<string>)
    requires WellBucketed(env.byName)
    requires forall i :: 0 <= i < |fields| ==>
               Transform.Visit(env, depthLimit, fields[i].key, fields[i].value, path) == Ok(Some(fields[i].value))
    ensures VisitEntries(env, depthLimit, fields, path) == Ok(fields)
  {
    if |fields| > 0 {
      assert Transform.Visit(env, depthLimit, fields[0].key, fields[0].value, path) == Ok(Some(fields[0].value));
      EntriesUnchanged(env, depthLimit, fields[1..], path);
      assert fields == [Field(fields[0].key, fields[0].value)] + fields[1..];
    }
  }

  /** The instances of a block with parameter, visited with their keys as
      `param`, are put back by the same rule: removed keys are deleted. */
  lemma {:induction false} KeyedRebuilt(env: Env, depthLimit: nat, name: string, contexts: Context,
                                        path: seq<string>, outs: seq<Option<Context>>)
    requires WellBucketed(env.byName) && |outs| == |contexts|
    requires forall i :: 0 <= i < |contexts| ==>
               VisitContext(env, depthLimit, name, Traverse.Key(contexts[i].key), contexts[i].value, path) == Ok(outs[i])
    ensures VisitKeyed(env, depthLimit, name, contexts, path) == Ok(Rebuilt(contexts, AsValues(outs)))
  {
    if |contexts| > 0 {
      assert VisitContext(env, depthLimit, name, Traverse.Key(contexts[0].key), contexts[0].value, path) == Ok(outs[0]);
      KeyedRebuilt(env, depthLimit, name, contexts[1..], path, outs[1..]);
      assert AsValues(outs)[1..] == AsValues(outs[1..]);
    }
  }

  /** Instance `i` of a block without parameter, visited with `param`
      `start + i`, has outcome `outs[i]`. */
  predicate IndexedOutcomes(env: Env, depthLimit: nat, name: string, contexts: seq<Value>, start: nat,
                            path: seq<string>, outs: seq<Option<Context>>)
    requires WellBucketed(env.byName)
  {
    && |outs| == |contexts|
    && forall i :: 0 <= i < |contexts| ==>
         VisitContext(env, depthLimit, name, Traverse.Index(start + i), contexts[i], path) == Ok(outs[i])
  }

  lemma IndexedOutcomesTail(env: Env, depthLimit: nat, name: string, contexts: seq<Value>, start: nat,
                            path: seq<string>, outs: seq<Option<Context>>)
    requires WellBucketed(env.byName) && |contexts| > 0
    requires IndexedOutcomes(env, depthLimit, name, contexts, start, path, outs)
    ensures VisitContext(env, depthLimit, name, Traverse.Index(start), contexts[0], path) == Ok(outs[0])
    ensures IndexedOutcomes(env, depthLimit, name, contexts[1..], start + 1, path, outs[1..])
  {
    assert start + 0 == start;
    forall i | 0 <= i < |contexts| - 1
      ensures VisitContext(env, depthLimit, name, Traverse.Index(start + 1 + i), contexts[1..][i], path)
              == Ok(outs[1..][i])
    {
      assert start + 1 + i == start + (i + 1);
      assert contexts[1..][i] == contexts[i + 1] && outs[1..][i] == outs[i + 1];
    }
  }

  /** The instances of a block without parameter, visited with their
      original positions as `param`, come back as the survivors in order. */
  lemma {:induction false} IndexedSurvivors(env: Env, depthLimit: nat, name: string, contexts: seq<Value>,
                                            start: nat, path: seq<string>, outs: seq<Option<Context>>)
    requires WellBucketed(env.byName)
    requires IndexedOutcomes(env, depthLimit, name, contexts, start, path, outs)
    ensures VisitIndexed(env, depthLimit, name, contexts, start, path) == Ok(Survivors(outs))
  {
    if |contexts| > 0 {
      IndexedOutcomesTail(env, depthLimit, name, contexts, start, path, outs);
      IndexedSurvivors(env, depthLimit, name, contexts[1..], start + 1, path, outs[1..]);
    }
  }

  /** A pre-order transformer that removes an instance ends its visit: the
      children are not visited and nothing is returned. */
  lemma PreRemovalSkipsChildren(env: Env, depthLimit: nat, name: string, param: Param, fields: Context,
                                path: seq<string>)
    requires WellBucketed(env.byName) && depthLimit > 0
    ensures RunBlock(EachTransformer(env.byName, name, LastOr(path, ""), true), Pre, fields, name, param,
                     LastOr(path, "")).None?
            ==> VisitContext(env, depthLimit, name, param, Obj(fields), path) == Ok(None)
  {
  }

  // ---------------------------------------------------------------------
  // Transforming with no transformers
  // ---------------------------------------------------------------------

  /** The environment of a call with no transformers. */
  function Plain(blocks: set<string>): (env: Env)
    ensures WellBucketed(env.byName)
  {
    Env(CreateResolver(blocks), map[])
  }

  /** A canonical directive: it classifies, every parameterless block is
      an array, and every block instance is an object whose body is
      canonical in turn. */
  predicate CanonicalValue(blocks: set<string>, name: string, v: Value, path: seq<string>)
    decreases Size(v), 2
  {
    match Classify(blocks, path + [name], v)
    case Err(_) => false
    case Ok(BlockWithoutParam) => v.Arr? && CanonicalItems(blocks, name, v.items, path)
    case Ok(BlockWithParam) => v.Obj? && CanonicalKeyed(blocks, name, v.fields, path)
    case Ok(_) => true
  }

  predicate CanonicalItems(blocks: set<string>, name: string, items: seq<Value>, path: seq<string>)
    decreases ItemsSize(items), 1
  {
    |items| == 0
    || (CanonicalInstance(blocks, name, items[0], path) && CanonicalItems(blocks, name, items[1..], path))
  }

  predicate CanonicalKeyed(blocks: set<string>, name: string, entries: Context, path: seq<string>)
    decreases FieldsSize(entries), 1
  {
    |entries| == 0
    || (CanonicalInstance(blocks, name, entries[0].value, path) && CanonicalKeyed(blocks, name, entries[1..], path))
  }

  predicate CanonicalInstance(blocks: set<string>, name: string, v: Value, path: seq<string>)
    decreases Size(v), 0
  {
    v.Obj? && CanonicalEntries(blocks, v.fields, path + [name])
  }

  predicate CanonicalEntries(blocks: set<string>, fields: Context, path: seq<string>)
    decreases FieldsSize(fields), 1
  {
    |fields| == 0
    || (CanonicalValue(blocks, fields[0].key, fields[0].value, path)
        && CanonicalEntries(blocks, fields[1..], path))
  }

  /** With no transformers, an object instance is just its visited body. */
  lemma PlainContext(blocks: set<string>, depthLimit: nat, name: string, param: Param, fields: Context,
                     path: seq<string>, body: Context)
    requires depthLimit > 0
    requires VisitEntries(Plain(blocks), depthLimit - 1, fields, path + [name]) == Ok(body)
    ensures VisitContext(Plain(blocks), depthLimit, name, param, Obj(fields), path) == Ok(Some(body))
  {
    var parent := LastOr(path, "");
    var none: map<string, seq<Transformer>> := map[];
    var chain := EachTransformer(none, name, parent, true);
    assert GetOr(none, Prefix(true) + name) == [] && GetOr(none, Prefix(true)) == [];
    assert chain == [];
    assert RunBlock(chain, Pre, fields, name, param, parent) == Some(fields);
    assert RunBlock(chain, Post, body, name, param, parent) == Some(body);
  }

  /** With no transformers, a kept instance is an object and what comes
      back is its visited body. */
  lemma PlainContextKept(blocks: set<string>, depthLimit: nat, name: string, param: Param, v: Value,
                         path: seq<string>, body: Context)
    requires VisitContext(Plain(blocks), depthLimit, name, param, v, path) == Ok(Some(body))
    ensures depthLimit > 0 && v.Obj?
    ensures PlainEntriesGive(blocks, depthLimit - 1, v.fields, path + [name], body)
  {
    var entries := VisitEntries(Plain(blocks), depthLimit - 1, v.fields, path + [name]);
    PlainContext(blocks, depthLimit, name, param, v.fields, path, entries.value);
  }

  /** With no transformers and a call-depth budget at least the size of the
      tree, a canonical directive comes back unchanged. */
  lemma {:induction false} VisitKeepsCanonical(blocks: set<string>, depthLimit: nat, name: string, v: Value, path: seq<string>)
    requires CanonicalValue(blocks, name, v, path) && depthLimit >= Size(v)
    ensures Visit(Plain(blocks), depthLimit, name, v, path) == Ok(Some(v))
    decreases Size(v), 2
  {
    match Classify(blocks, path + [name], v)
    case Ok(BlockWithoutParam) =>
      IndexedKeepsCanonical(blocks, depthLimit, name, v.items, 0, path);
    case Ok(BlockWithParam) =>
      KeyedKeepsCanonical(blocks, depthLimit, name, v.fields, path);
    case Ok(_) =>
  }

  lemma {:induction false} IndexedKeepsCanonical(blocks: set<string>, depthLimit: nat, name: string, items: seq<Value>,
                                                 start: nat, path: seq<string>)
    requires CanonicalItems(blocks, name, items, path) && depthLimit >= ItemsSize(items)
    ensures VisitIndexed(Plain(blocks), depthLimit, name, items, start, path) == Ok(items)
    decreases ItemsSize(items), 1
  {
    if |items| > 0 {
      assert ItemsSize(items) == Size(items[0]) + ItemsSize(items[1..]);
      ContextKeepsCanonical(blocks, depthLimit, name, Traverse.Index(start), items[0], path);
      assert items[0] == Obj(items[0].fields);
      IndexedKeepsCanonical(blocks, depthLimit, name, items[1..], start + 1, path);
      assert items == [items[0]] + items[1..];
    }
  }

  lemma {:induction false} KeyedKeepsCanonical(blocks: set<string>, depthLimit: nat, name: string, entries: Context,
                                               path: seq<string>)
    requires CanonicalKeyed(blocks, name, entries, path) && depthLimit >= FieldsSize(entries)
    ensures VisitKeyed(Plain(blocks), depthLimit, name, entries, path) == Ok(entries)
    decreases FieldsSize(entries), 1
  {
    if |entries| > 0 {
      var head, tail := entries[0], entries[1..];
      assert FieldsSize(entries) == 1 + Size(head.value) + FieldsSize(tail);
      ContextKeepsCanonical(blocks, depthLimit, name, Traverse.Key(head.key), head.value, path);
      KeyedKeepsCanonical(blocks, depthLimit, name, tail, path);
      KeyedKeptStep(Plain(blocks), depthLimit, name, entries, path);
    }
  }

  /** An instance that comes back unchanged, followed by instances that
      come back unchanged, leaves a block with parameter unchanged. */
  lemma KeyedKeptStep(env: Env, depthLimit: nat, name: string, entries: Context, path: seq<string>)
    requires WellBucketed(env.byName) && |entries| > 0 && entries[0].value.Obj?
    requires VisitContext(env, depthLimit, name, Traverse.Key(entries[0].key), entries[0].value, path)
             == Ok(Some(entries[0].value.fields))
    requires VisitKeyed(env, depthLimit, name, entries[1..], path) == Ok(entries[1..])
    ensures VisitKeyed(env, depthLimit, name, entries, path) == Ok(entries)
  {
    assert [Field(entries[0].key, Obj(entries[0].value.fields))] == [entries[0]];
    assert entries == [entries[0]] + entries[1..];
  }

  lemma {:induction false} ContextKeepsCanonical(blocks: set<string>, depthLimit: nat, name: string, param: Param,
                                                 v: Value, path: seq<string>)
    requires CanonicalInstance(blocks, name, v, path) && depthLimit >= Size(v)
    ensures VisitContext(Plain(blocks), depthLimit, name, param, v, path) == Ok(Some(v.fields))
    decreases Size(v), 0
  {
    var fields := v.fields;
    assert v == Obj(fields);
    assert depthLimit - 1 >= FieldsSize(fields);
    assert CanonicalEntries(blocks, fields, path + [name]);
    EntriesKeepCanonical(blocks, depthLimit - 1, fields, path + [name]);
    PlainContext(blocks, depthLimit, name, param, fields, path, fields);
  }

  lemma {:induction false} EntriesKeepCanonical(blocks: set<string>, depthLimit: nat, fields: Context, path: seq<string>)
    requires CanonicalEntries(blocks, fields, path) && depthLimit >= FieldsSize(fields)
    ensures VisitEntries(Plain(blocks), depthLimit, fields, path) == Ok(fields)
    decreases FieldsSize(fields), 1
  {
    if |fields| > 0 {
      VisitKeepsCanonical(blocks, depthLimit, fields[0].key, fields[0].value, path);
      EntriesKeepCanonical(blocks, depthLimit, fields[1..], path);
      assert fields == [fields[0]] + fields[1..];
    }
  }

  /** A parameterless-block verdict rests on the path or on the `{}`
      marker, never on the particular objects: any list of objects at the
      same path is a parameterless block too. */
  lemma ParameterlessObjects(blocks: set<string>, path: seq<string>, v: Value, objs: seq<Value>)
    requires Classify(blocks, path, v) == Ok(BlockWithoutParam)
    requires forall i :: 0 <= i < |objs| ==> objs[i].Obj?
    requires |objs| > 0 ==> !(v.Arr? && |v.items| == 0)
    ensures Classify(blocks, path, Arr(objs)) == Ok(BlockWithoutParam)
  {
    if |objs| > 0 {
      var sample := if v.Obj? then v else v.items[0];
      assert IsBlockWithoutParam(blocks, path, sample);
      assert AllBlocksWithoutParam(blocks, path, objs);
    }
  }

  /** With no transformers, whatever `visit` returns is canonical. */
  lemma {:induction false} VisitCanonicalizes(blocks: set<string>, depthLimit: nat, name: string, v: Value,
                                              path: seq<string>, out: Option<Value>)
    requires Visit(Plain(blocks), depthLimit, name, v, path) == Ok(out)
    ensures out.Some? && CanonicalValue(blocks, name, out.value, path)
    decreases depthLimit, Size(v), 3
  {
    var env := Plain(blocks);
    match Classify(blocks, path + [name], v)
    case Ok(BlockWithoutParam) =>
      var contexts := Arrify(v);
      Traverse.ArrifySize(v);
      var kept := VisitIndexed(env, depthLimit, name, contexts, 0, path);
      assert kept.Ok? && out == Some(Arr(kept.value));
      IndexedCanonicalizes(blocks, depthLimit, name, contexts, 0, path, kept.value);
      ParameterlessObjects(blocks, path + [name], v, kept.value);
    case Ok(BlockWithParam) =>
      var entries := VisitKeyed(env, depthLimit, name, v.fields, path);
      assert entries.Ok? && out == Some(Obj(entries.value));
      KeyedCanonicalizes(blocks, depthLimit, name, v.fields, path, entries.value);
      assert AllObjectValues(entries.value);
    case Ok(_) =>
  }

  lemma {:induction false} IndexedCanonicalizes(blocks: set<string>, depthLimit: nat, name: string, contexts: seq<Value>,
                                                start: nat, path: seq<string>, out: seq<Value>)
    requires VisitIndexed(Plain(blocks), depthLimit, name, contexts, start, path) == Ok(out)
    ensures CanonicalItems(blocks, name, out, path)
    decreases depthLimit, ItemsSize(contexts), 2
  {
    if |contexts| > 0 {
      var first := VisitContext(Plain(blocks), depthLimit, name, Traverse.Index(start), contexts[0], path);
      var rest := VisitIndexed(Plain(blocks), depthLimit, name, contexts[1..], start + 1, path);
      assert first.Ok? && rest.Ok?;
      ContextCanonicalizes(blocks, depthLimit, name, Traverse.Index(start), contexts[0], path, first.value);
      IndexedCanonicalizes(blocks, depthLimit, name, contexts[1..], start + 1, path, rest.value);
      if first.value.Some? {
        assert out == [Obj(first.value.value)] + rest.value;
        assert out[0] == Obj(first.value.value) && out[1..] == rest.value;
      } else {
        assert out == rest.value;
      }
    }
  }

  lemma {:induction false} KeyedCanonicalizes(blocks: set<string>, depthLimit: nat, name: string, entries: Context,
                                              path: seq<string>, out: Context)
    requires VisitKeyed(Plain(blocks), depthLimit, name, entries, path) == Ok(out)
    ensures CanonicalKeyed(blocks, name, out, path)
    decreases depthLimit, FieldsSize(entries), 2
  {
    if |entries| > 0 {
      var key := entries[0].key;
      var first := VisitContext(Plain(blocks), depthLimit, name, Traverse.Key(key), entries[0].value, path);
      var rest := VisitKeyed(Plain(blocks), depthLimit, name, entries[1..], path);
      assert first.Ok? && rest.Ok?;
      ContextCanonicalizes(blocks, depthLimit, name, Traverse.Key(key), entries[0].value, path, first.value);
      KeyedCanonicalizes(blocks, depthLimit, name, entries[1..], path, rest.value);
      if first.value.Some? {
        assert out == [Field(key, Obj(first.value.value))] + rest.value;
        assert out[0].value == Obj(first.value.value) && out[1..] == rest.value;
      } else {
        assert out == rest.value;
      }
    }
  }

  lemma {:induction false} ContextCanonicalizes(blocks: set<string>, depthLimit: nat, name: string, param: Param,
                                                v: Value, path: seq<string>, out: Option<Context>)
    requires VisitContext(Plain(blocks), depthLimit, name, param, v, path) == Ok(out)
    ensures out.Some? ==> CanonicalInstance(blocks, name, Obj(out.value), path)
    decreases depthLimit, Size(v), 1
  {
    if out.Some? {
      KeptContextCanonical(blocks, depthLimit, name, param, v, path, out.value);
    }
  }

  lemma {:induction false} KeptContextCanonical(blocks: set<string>, depthLimit: nat, name: string, param: Param,
                                                v: Value, path: seq<string>, body: Context)
    requires VisitContext(Plain(blocks), depthLimit, name, param, v, path) == Ok(Some(body))
    ensures CanonicalInstance(blocks, name, Obj(body), path)
    decreases depthLimit, Size(v), 0
  {
    PlainContextKept(blocks, depthLimit, name, param, v, path, body);
    EntriesCanonicalize(blocks, depthLimit - 1, v.fields, path + [name], body);
  }

  /** With no transformers, the children of a body come back as `out`. */
  predicate PlainEntriesGive(blocks: set<string>, depthLimit: nat, fields: Context, path: seq<string>, out: Context) {
    VisitEntries(Plain(blocks), depthLimit, fields, path) == Ok(out)
  }

  lemma {:induction false} EntriesCanonicalize(blocks: set<string>, depthLimit: nat, fields: Context, path: seq<string>,
                                               out: Context)
    requires PlainEntriesGive(blocks, depthLimit, fields, path, out)
    ensures CanonicalEntries(blocks, out, path)
    decreases depthLimit, FieldsSize(fields), 1
  {
    if |fields| > 0 {
      var first := Visit(Plain(blocks), depthLimit, fields[0].key, fields[0].value, path);
      var rest := VisitEntries(Plain(blocks), depthLimit, fields[1..], path);
      assert first.Ok? && rest.Ok?;
      VisitCanonicalizes(blocks, depthLimit, fields[0].key, fields[0].value, path, first.value);
      EntriesCanonicalize(blocks, depthLimit, fields[1..], path, rest.value);
      assert out == [Field(fields[0].key, first.value.value)] + rest.value;
      assert out[0] == Field(fields[0].key, first.value.value) && out[1..] == rest.value;
    }
  }

  lemma NoTransformers(blocks: set<string>)
    ensures Env(CreateResolver(blocks), Buckets([])) == Plain(blocks)
  {
  }

  /** `transform` with no transformers leaves a canonical configuration
      unchanged. */
  lemma TransformKeepsCanonical(blocks: set<string>, context: ContextRef, input: Context, depthLimit: nat)
    requires var root := SplitRoot(ResolvePath(context));
             CanonicalEntries(blocks, input, root.0 + [root.1])
    requires depthLimit >= Size(Obj(input))
    ensures Transform.Transform(CreateResolver(blocks), [], context, input, depthLimit) == Ok(Some(input))
  {
    var root := SplitRoot(ResolvePath(context));
    NoTransformers(blocks);
    ContextKeepsCanonical(blocks, depthLimit, root.1, Traverse.Index(0), Obj(input), root.0);
  }

  /** `transform` with no transformers is idempotent: its output is
      canonical, so a second pass returns it unchanged. */
  lemma TransformIdempotent(blocks: set<string>, context: ContextRef, input: Context, depthLimit: nat, output: Context)
    requires Transform.Transform(CreateResolver(blocks), [], context, input, depthLimit) == Ok(Some(output))
    ensures Transform.Transform(CreateResolver(blocks), [], context, output, Size(Obj(output))) == Ok(Some(output))
  {
    var root := SplitRoot(ResolvePath(context));
    NoTransformers(blocks);
    ContextCanonicalizes(blocks, depthLimit, root.1, Traverse.Index(0), Obj(input), root.0, Some(output));
    TransformKeepsCanonical(blocks, context, output, Size(Obj(output)));
  }

  lemma HttpRoot()
    ensures SplitRoot(ResolvePath(Named("http"))) == (["main"], "http")
  {
    assert ResolvePath(Named("http")) == ["main", "http"];
    var root := SplitRoot(["main", "http"]);
    assert root.0 + [root.1] == ["main", "http"];
    assert |root.0| == 1;
    assert (root.0 + [root.1])[1] == root.1;
    assert (root.0 + [root.1])[0] == root.0[0];
    assert root.0 == ["main"] && root.1 == "http";
  }

  lemma TransformAtHttp(blocks: set<string>, input: Context, depthLimit: nat)
    ensures Transform.Transform(CreateResolver(blocks), [], Named("http"), input, depthLimit)
            == VisitContext(Plain(blocks), depthLimit, "http", Traverse.Index(0), Obj(input), ["main"])
  {
    HttpRoot();
    NoTransformers(blocks);
  }

  /** A single parameterless block given as an object comes back as a
      one-element array: `transform` with no transformers is not the
      identity. */
  lemma SingleBlockBecomesArray(server: Context, depthLimit: nat)
    requires CanonicalEntries(BuiltinBlocksWithoutParam, server, ["main", "http", "server"])
    requires depthLimit > Size(Obj(server))
    ensures Transform.Transform(DefaultResolver(), [], Named("http"), [Field("server", Obj(server))], depthLimit)
            == Ok(Some([Field("server", Arr([Obj(server)]))]))
  {
    TransformAtHttp(BuiltinBlocksWithoutParam, [Field("server", Obj(server))], depthLimit);
    HttpServerBody(server, depthLimit);
  }

  lemma HttpServerBody(server: Context, depthLimit: nat)
    requires CanonicalEntries(BuiltinBlocksWithoutParam, server, ["main", "http", "server"])
    requires depthLimit > Size(Obj(server))
    ensures VisitContext(Plain(BuiltinBlocksWithoutParam), depthLimit, "http", Traverse.Index(0),
                         Obj([Field("server", Obj(server))]), ["main"])
            == Ok(Some([Field("server", Arr([Obj(server)]))]))
  {
    var env := Plain(BuiltinBlocksWithoutParam);
    var path := ["main", "http"];
    var input := [Field("server", Obj(server))];
    var out := [Field("server", Arr([Obj(server)]))];
    assert ["main"] + ["http"] == path;
    ServerBlockVisit(server, depthLimit - 1);
    assert VisitEntries(env, depthLimit - 1, input, path) == Ok(out) by {
      assert input[0].key == "server" && input[0].value == Obj(server) && input[1..] == [];
      assert VisitEntries(env, depthLimit - 1, [], path) == Ok([]);
      assert out == [Field("server", Arr([Obj(server)]))] + [];
    }
    PlainContext(BuiltinBlocksWithoutParam, depthLimit, "http", Traverse.Index(0), input, ["main"], out);
  }

  lemma ServerBlockVisit(server: Context, depthLimit: nat)
    requires CanonicalEntries(BuiltinBlocksWithoutParam, server, ["main", "http", "server"])
    requires depthLimit >= Size(Obj(server))
    ensures Visit(Plain(BuiltinBlocksWithoutParam), depthLimit, "server", Obj(server), ["main", "http"])
            == Ok(Some(Arr([Obj(server)])))
  {
    var blocks := BuiltinBlocksWithoutParam;
    var env := Plain(blocks);
    var path := ["main", "http"];
    assert path + ["server"] == ["main", "http", "server"];
    BuiltinRootsAreParameterless();
    ParameterlessTestFirst(blocks, path + ["server"], server);
    ContextKeepsCanonical(blocks, depthLimit, "server", Traverse.Index(0), Obj(server), path);
    assert VisitIndexed(env, depthLimit, "server", [Obj(server)], 0, path) == Ok([Obj(server)]) by {
      assert [Obj(server)][0] == Obj(server) && [Obj(server)][1..] == [];
      assert VisitIndexed(env, depthLimit, "server", [], 1, path) == Ok([]);
      assert [Obj(server)] + [] == [Obj(server)];
    }
  }
}
