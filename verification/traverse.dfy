/** The traversal engine (`src/traverse.ts`).

    `traverse` walks a configuration depth-first and calls the visitor's
    hooks. Here the walk returns the sequence of hook calls it makes (an
    event trace); what a visitor does with a call is up to the visitor, and
    the only thing a hook can feed back, `SKIP`, is a decision function of
    the hook's arguments. When the classifier throws, the walk stops: the
    trace holds the calls made before that point and the error.
 */
module Traverse {

  import opened Wrappers
  import opened Tree
  import opened Utils
  import opened Errors
  import opened ContextName
  import opened DirectiveTypes

  /** The `param` of a block instance: its position for a block without
      parameter, its key for a block with parameter. */
  datatype Param = Index(i: nat) | Key(k: string)

  /** `SimpleDirectiveValues`: always a list, an object or `null`. */
  datatype SimpleValues = NoValue | Items(items: seq<Value>) | Pairs(pairs: Context)

  /** The `blocks` argument of `visitBlock`. */
  datatype Blocks = Positional(contexts: seq<Value>) | Keyed(entries: Context)

  /** One hook call. */
  datatype Event =
    | VisitSimple(name: string, values: SimpleValues, context: string)
    | VisitBlock(name: string, blocks: Blocks, context: string)
    | EnterContext(name: string, param: Param, contextObj: Context, parent: string)
    | LeaveContext(name: string, param: Param, contextObj: Context, parent: string)

  /** What a visitor answers: does `visitBlock` / `enterContext` return
      `SKIP` for these arguments? A missing hook never skips. */
  datatype Visitor = Visitor(
    skipBlock: (string, Blocks, string) -> bool,
    skipContext: (string, Param, Context, string) -> bool)

  /** A visitor that never skips (the serializer's). */
  function NeverSkip(): Visitor {
    Visitor((n: string, b: Blocks, c: string) => false,
            (n: string, p: Param, o: Context, c: string) => false)
  }

  /** The hook calls made, and the error that stopped the walk, if any. */
  datatype Trace = Trace(events: seq<Event>, error: Option<Error>)

  function Done(): Trace {
    Trace([], None)
  }

  function Fail(e: Error): Trace {
    Trace([], Some(e))
  }

  /** Run `t`, then `next` unless `t` threw. */
  function Then(t: Trace, next: Trace): (r: Trace)
    ensures t.error.Some? ==> r == t
    ensures t.error.None? ==> r.events == t.events + next.events && r.error == next.error
  {
    if t.error.Some? then t else Trace(t.events + next.events, next.error)
  }

  function Prepend(e: Event, t: Trace): Trace {
    Trace([e] + t.events, t.error)
  }

  /** The normalisation of a simple directive's value: an object is passed
      as is, anything else through `arrify`. */
  function Normalize(v: Value): (r: SimpleValues)
    ensures v.Obj? ==> r == Pairs(v.fields)
    ensures v.Arr? ==> r == Items(v.items)
    ensures IsScalar(v) ==> r == Items([v])
  {
    if v.Obj? then Pairs(v.fields) else Items(Arrify(v))
  }

  lemma ArrifySize(v: Value)
    ensures ItemsSize(Arrify(v)) <= Size(v)
  {
    if !v.Null? && !v.Arr? {
      assert ItemsSize([v]) == Size(v) + ItemsSize([v][1..]);
    }
  }

  /** `visit(name, value, path)`: classify the directive at `path + [name]`
      and call the hooks its type calls for. */
  function Visit(resolve: Resolver, visitor: Visitor, name: string, value: Value, path: seq<string>): Trace
    decreases Size(value), 2
  {
    var parent := LastOr(path, "");
    match resolve(path + [name], value)
    case Err(e) => Fail(e)
    case Ok(Nullary) => Trace([VisitSimple(name, NoValue, parent)], None)
    case Ok(Simple) => Trace([VisitSimple(name, Normalize(value), parent)], None)
    case Ok(BlockWithoutParam) =>
      var contexts := Arrify(value);
      ArrifySize(value);
      var call := VisitBlock(name, Positional(contexts), parent);
      if visitor.skipBlock(name, Positional(contexts), parent) then Trace([call], None)
      else Prepend(call, VisitIndexed(resolve, visitor, name, contexts, 0, path))
    case Ok(BlockWithParam) =>
      if !value.Obj? then Fail(UnsupportedInstance(path + [name], value))
      else
        var call := VisitBlock(name, Keyed(value.fields), parent);
        if visitor.skipBlock(name, Keyed(value.fields), parent) then Trace([call], None)
        else Prepend(call, VisitKeyed(resolve, visitor, name, value.fields, path))
  }

  /** The instances of a block without parameter, `start` being the index of
      the first one. */
  function VisitIndexed(resolve: Resolver, visitor: Visitor, name: string, contexts: seq<Value>,
                        start: nat, path: seq<string>): Trace
    decreases ItemsSize(contexts), 1
  {
    if |contexts| == 0 then Done()
    else Then(VisitContext(resolve, visitor, name, Index(start), contexts[0], path),
              VisitIndexed(resolve, visitor, name, contexts[1..], start + 1, path))
  }

  /** The instances of a block with parameter, in key order. */
  function VisitKeyed(resolve: Resolver, visitor: Visitor, name: string, contexts: Context,
                      path: seq<string>): Trace
    decreases FieldsSize(contexts), 1
  {
    if |contexts| == 0 then Done()
    else Then(VisitContext(resolve, visitor, name, Key(contexts[0].key), contexts[0].value, path),
              VisitKeyed(resolve, visitor, name, contexts[1..], path))
  }

  /** `visitContext(name, param, contextObj, path)` */
  function VisitContext(resolve: Resolver, visitor: Visitor, name: string, param: Param,
                        instance: Value, path: seq<string>): Trace
    decreases Size(instance), 0
  {
    if !instance.Obj? then Fail(UnsupportedInstance(path + [name], instance))
    else
      var parent := LastOr(path, "");
      var enter := EnterContext(name, param, instance.fields, parent);
      if visitor.skipContext(name, param, instance.fields, parent) then Trace([enter], None)
      else
        var leave := LeaveContext(name, param, instance.fields, parent);
        Prepend(enter, Then(VisitEntries(resolve, visitor, instance.fields, path + [name]),
                            Trace([leave], None)))
  }

  /** The directives of a context body, in key order. */
  function VisitEntries(resolve: Resolver, visitor: Visitor, fields: Context, path: seq<string>): Trace
    decreases FieldsSize(fields), 1
  {
    if |fields| == 0 then Done()
    else Then(Visit(resolve, visitor, fields[0].key, fields[0].value, path),
              VisitEntries(resolve, visitor, fields[1..], path))
  }

  /** `traverse(context, input, visitor, state, opts)` */
  function Traverse(resolve: Resolver, visitor: Visitor, context: ContextRef, input: Context): Trace {
    var root := SplitRoot(ResolvePath(context));
    VisitContext(resolve, visitor, root.1, Index(0), Obj(input), root.0)
  }
}
