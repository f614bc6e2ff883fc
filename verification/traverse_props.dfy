/** Properties of the traversal engine.

    The central one is a scoping invariant: replaying a trace against a
    stack of open contexts, every hook receives the innermost open context
    as its context argument, `enterContext` opens a context unless it
    skips, and `leaveContext` closes the context it names. A completed walk
    closes everything it opened; an aborted one never breaks the discipline.
 */
module TraverseProps {

  import opened Wrappers
  import opened Tree
  import opened Utils
  import opened Errors
  import opened ContextName
  import opened DirectiveTypes
  import opened Traverse

  /** Replay `events` against the stack of open context names; `None` when
      some event does not fit the stack. */
  function Scan(visitor: Visitor, events: seq<Event>, stack: seq<string>): Option<seq<string>>
    decreases |events|
  {
    if |events| == 0 then Some(stack)
    else
      var rest := events[1..];
      var top := LastOr(stack, "");
      match events[0]
      case VisitSimple(_, _, c) => if c == top then Scan(visitor, rest, stack) else None
      case VisitBlock(_, _, c) => if c == top then Scan(visitor, rest, stack) else None
      case EnterContext(n, p, o, parent) =>
        if parent != top then None
        else if visitor.skipContext(n, p, o, parent) then Scan(visitor, rest, stack)
        else Scan(visitor, rest, stack + [n])
      case LeaveContext(n, p, o, parent) =>
        if |stack| > 0 && stack[|stack| - 1] == n && parent == LastOr(stack[..|stack| - 1], "")
        then Scan(visitor, rest, stack[..|stack| - 1])
        else None
  }

  /** The trace fits the stack, and a completed walk leaves it as it found it. */
  predicate Nested(visitor: Visitor, t: Trace, stack: seq<string>) {
    Scan(visitor, t.events, stack).Some?
    && (t.error.None? ==> Scan(visitor, t.events, stack) == Some(stack))
  }

  lemma {:induction false} ScanAppend(visitor: Visitor, a: seq<Event>, b: seq<Event>, stack: seq<string>)
    ensures Scan(visitor, a + b, stack)
            == (match Scan(visitor, a, stack) case None => None case Some(s) => Scan(visitor, b, s))
    decreases |a|
  {
    if |a| > 0 {
      assert (a + b)[0] == a[0];
      assert (a + b)[1..] == a[1..] + b;
      match a[0]
      case VisitSimple(_, _, _) => ScanAppend(visitor, a[1..], b, stack);
      case VisitBlock(_, _, _) => ScanAppend(visitor, a[1..], b, stack);
      case EnterContext(n, _, _, _) =>
        ScanAppend(visitor, a[1..], b, stack);
        ScanAppend(visitor, a[1..], b, stack + [n]);
      case LeaveContext(_, _, _, _) =>
        if |stack| > 0 {
          ScanAppend(visitor, a[1..], b, stack[..|stack| - 1]);
        }
    } else {
      assert a + b == b;
    }
  }

  lemma ThenNested(visitor: Visitor, t: Trace, next: Trace, stack: seq<string>)
    requires Nested(visitor, t, stack) && Nested(visitor, next, stack)
    ensures Nested(visitor, Then(t, next), stack)
  {
    if t.error.None? {
      ScanAppend(visitor, t.events, next.events, stack);
    }
  }

  lemma {:induction false} VisitNested(resolve: Resolver, visitor: Visitor, name: string, value: Value, path: seq<string>)
    ensures Nested(visitor, Visit(resolve, visitor, name, value, path), path)
    decreases Size(value), 2
  {
    var parent := LastOr(path, "");
    match resolve(path + [name], value)
    case Err(_) =>
    case Ok(Nullary) =>
    case Ok(Simple) =>
    case Ok(BlockWithoutParam) =>
      var contexts := Arrify(value);
      ArrifySize(value);
      if !visitor.skipBlock(name, Positional(contexts), parent) {
        var rest := VisitIndexed(resolve, visitor, name, contexts, 0, path);
        IndexedNested(resolve, visitor, name, contexts, 0, path);
        assert ([VisitBlock(name, Positional(contexts), parent)] + rest.events)[1..] == rest.events;
      }
    case Ok(BlockWithParam) =>
      if value.Obj? && !visitor.skipBlock(name, Keyed(value.fields), parent) {
        var rest := VisitKeyed(resolve, visitor, name, value.fields, path);
        KeyedNested(resolve, visitor, name, value.fields, path);
        assert ([VisitBlock(name, Keyed(value.fields), parent)] + rest.events)[1..] == rest.events;
      }
  }

  lemma {:induction false} IndexedNested(resolve: Resolver, visitor: Visitor, name: string, contexts: seq<Value>,
                                         start: nat, path: seq<string>)
    ensures Nested(visitor, VisitIndexed(resolve, visitor, name, contexts, start, path), path)
    decreases ItemsSize(contexts), 1
  {
    if |contexts| > 0 {
      ContextNested(resolve, visitor, name, Index(start), contexts[0], path);
      IndexedNested(resolve, visitor, name, contexts[1..], start + 1, path);
      ThenNested(visitor, VisitContext(resolve, visitor, name, Index(start), contexts[0], path),
                 VisitIndexed(resolve, visitor, name, contexts[1..], start + 1, path), path);
    }
  }

  lemma {:induction false} KeyedNested(resolve: Resolver, visitor: Visitor, name: string, contexts: Context,
                                       path: seq<string>)
    ensures Nested(visitor, VisitKeyed(resolve, visitor, name, contexts, path), path)
    decreases FieldsSize(contexts), 1
  {
    if |contexts| > 0 {
      ContextNested(resolve, visitor, name, Key(contexts[0].key), contexts[0].value, path);
      KeyedNested(resolve, visitor, name, contexts[1..], path);
      ThenNested(visitor, VisitContext(resolve, visitor, name, Key(contexts[0].key), contexts[0].value, path),
                 VisitKeyed(resolve, visitor, name, contexts[1..], path), path);
    }
  }

  lemma {:induction false} ContextNested(resolve: Resolver, visitor: Visitor, name: string, param: Param,
                                         instance: Value, path: seq<string>)
    ensures Nested(visitor, VisitContext(resolve, visitor, name, param, instance, path), path)
    decreases Size(instance), 0
  {
    if instance.Obj? {
      var parent := LastOr(path, "");
      var enter := EnterContext(name, param, instance.fields, parent);
      if !visitor.skipContext(name, param, instance.fields, parent) {
        var leave := LeaveContext(name, param, instance.fields, parent);
        var body := VisitEntries(resolve, visitor, instance.fields, path + [name]);
        EntriesNested(resolve, visitor, instance.fields, path + [name]);
        var t := Then(body, Trace([leave], None));
        assert ([enter] + t.events)[0] == enter;
        assert ([enter] + t.events)[1..] == t.events;
        assert Scan(visitor, [enter] + t.events, path) == Scan(visitor, t.events, path + [name]);
        if body.error.None? {
          ScanAppend(visitor, body.events, [leave], path + [name]);
          assert (path + [name])[..|path|] == path;
          assert Scan(visitor, [leave], path + [name]) == Some(path);
        }
      } else {
        assert [enter][1..] == [];
      }
    }
  }

  lemma {:induction false} EntriesNested(resolve: Resolver, visitor: Visitor, fields: Context, path: seq<string>)
    ensures Nested(visitor, VisitEntries(resolve, visitor, fields, path), path)
    decreases FieldsSize(fields), 1
  {
    if |fields| > 0 {
      VisitNested(resolve, visitor, fields[0].key, fields[0].value, path);
      EntriesNested(resolve, visitor, fields[1..], path);
      ThenNested(visitor, Visit(resolve, visitor, fields[0].key, fields[0].value, path),
                 VisitEntries(resolve, visitor, fields[1..], path), path);
    }
  }

  /** Every hook of a traversal receives, as its context argument, the
      innermost open context (starting from the parent path of the root),
      and a traversal that completes closes every context it opened. */
  lemma TraverseWellNested(resolve: Resolver, visitor: Visitor, context: ContextRef, input: Context)
    ensures var t := Traverse.Traverse(resolve, visitor, context, input);
            var parentPath := SplitRoot(ResolvePath(context)).0;
            Scan(visitor, t.events, parentPath).Some?
            && (t.error.None? ==> Scan(visitor, t.events, parentPath) == Some(parentPath))
  {
    var root := SplitRoot(ResolvePath(context));
    ContextNested(resolve, visitor, root.1, Index(0), Obj(input), root.0);
  }

  // ---------------------------------------------------------------------
  // Single hook calls
  // ---------------------------------------------------------------------

  /** `null` is one `visitSimple` call without values, whatever the path,
      even one in the parameterless set or under a `{}` name. */
  lemma NullVisitsSimple(blocks: set<string>, visitor: Visitor, name: string, path: seq<string>)
    ensures Traverse.Visit(CreateResolver(blocks), visitor, name, Null, path)
            == Trace([VisitSimple(name, NoValue, LastOr(path, ""))], None)
  {
    assert CreateResolver(blocks)(path + [name], Null) == Classify(blocks, path + [name], Null);
  }

  /** A lone scalar is one `visitSimple` call with a one-element list. */
  lemma ScalarVisitsSimple(blocks: set<string>, visitor: Visitor, name: string, v: Value, path: seq<string>)
    requires IsScalar(v)
    ensures Traverse.Visit(CreateResolver(blocks), visitor, name, v, path)
            == Trace([VisitSimple(name, Items([v]), LastOr(path, ""))], None)
  {
    assert CreateResolver(blocks)(path + [name], v) == Classify(blocks, path + [name], v);
  }

  /** A map of scalars is passed to `visitSimple` as it is. */
  lemma ScalarMapVisitsSimple(blocks: set<string>, visitor: Visitor, name: string, fields: Context, path: seq<string>)
    requires Classify(blocks, path + [name], Obj(fields)) == Ok(Simple)
    ensures Traverse.Visit(CreateResolver(blocks), visitor, name, Obj(fields), path)
            == Trace([VisitSimple(name, Pairs(fields), LastOr(path, ""))], None)
  {
    assert CreateResolver(blocks)(path + [name], Obj(fields)) == Classify(blocks, path + [name], Obj(fields));
  }

  /** When `visitBlock` answers `SKIP` for the block's own instances, the
      block call is the only event: no instance is entered. */
  lemma SkippedBlockEntersNothing(resolve: Resolver, visitor: Visitor, name: string, v: Value, path: seq<string>)
    requires || (resolve(path + [name], v) == Ok(BlockWithoutParam)
                 && visitor.skipBlock(name, Positional(Arrify(v)), LastOr(path, "")))
             || (resolve(path + [name], v) == Ok(BlockWithParam)
                 && (v.Obj? ==> visitor.skipBlock(name, Keyed(v.fields), LastOr(path, ""))))
    ensures var t := Traverse.Visit(resolve, visitor, name, v, path);
            forall i :: 0 <= i < |t.events| ==> !t.events[i].EnterContext?
    ensures var t := Traverse.Visit(resolve, visitor, name, v, path);
            t.error.None? ==> |t.events| == 1 && t.events[0].VisitBlock?
  {
  }

  /** When `enterContext` answers `SKIP`, neither the children nor
      `leaveContext` are visited. */
  lemma SkippedContextIsLeaf(resolve: Resolver, visitor: Visitor, name: string, param: Param, fields: Context,
                             path: seq<string>)
    requires visitor.skipContext(name, param, fields, LastOr(path, ""))
    ensures var t := VisitContext(resolve, visitor, name, param, Obj(fields), path);
            t.error.None? && |t.events| == 1 && t.events[0].EnterContext?
  {
  }

  /** An entered context that completes is bracketed: `enterContext`
      first, `leaveContext` for the same instance last, after every child. */
  lemma ContextBrackets(resolve: Resolver, visitor: Visitor, name: string, param: Param, fields: Context,
                        path: seq<string>)
    requires !visitor.skipContext(name, param, fields, LastOr(path, ""))
    requires VisitContext(resolve, visitor, name, param, Obj(fields), path).error.None?
    ensures var t := VisitContext(resolve, visitor, name, param, Obj(fields), path);
            var body := VisitEntries(resolve, visitor, fields, path + [name]);
            var parent := LastOr(path, "");
            && t.events == [EnterContext(name, param, fields, parent)] + body.events
                           + [LeaveContext(name, param, fields, parent)]
            && body.error.None?
  {
    var body := VisitEntries(resolve, visitor, fields, path + [name]);
    var parent := LastOr(path, "");
    var leave := LeaveContext(name, param, fields, parent);
    assert Then(body, Trace([leave], None)).events == body.events + [leave];
  }

  // ---------------------------------------------------------------------
  // Instances and children in order
  // ---------------------------------------------------------------------

  /** Steps run one after another; the first error ends the run. */
  function Sequenced(steps: seq<Trace>): (r: Trace)
    ensures |steps| == 0 ==> r == Done()
  {
    if |steps| == 0 then Done() else Then(steps[0], Sequenced(steps[1..]))
  }

  /** The events of several steps, one step after another. */
  function Flatten(steps: seq<Trace>): seq<Event> {
    if |steps| == 0 then [] else steps[0].events + Flatten(steps[1..])
  }

  /** A run that completes completed every step, and its events are the
      steps' events in step order. */
  lemma {:induction false} SequencedCompletes(steps: seq<Trace>)
    requires Sequenced(steps).error.None?
    ensures forall i :: 0 <= i < |steps| ==> steps[i].error.None?
    ensures Sequenced(steps).events == Flatten(steps)
  {
    if |steps| > 0 {
      SequencedCompletes(steps[1..]);
      forall i | 0 < i < |steps| ensures steps[i].error.None? {
        assert steps[i] == steps[1..][i - 1];
      }
    }
  }

  /** The instance visits of a block without parameter: the `i`-th one with
      position `start + i`. */
  function IndexedSteps(resolve: Resolver, visitor: Visitor, name: string, contexts: seq<Value>,
                        start: nat, path: seq<string>): (steps: seq<Trace>)
    ensures |steps| == |contexts|
  {
    seq(|contexts|, i requires 0 <= i < |contexts| =>
      VisitContext(resolve, visitor, name, Index(start + i), contexts[i], path))
  }

  /** The instance visits of a block with parameter: each with its key. */
  function KeyedSteps(resolve: Resolver, visitor: Visitor, name: string, contexts: Context,
                      path: seq<string>): (steps: seq<Trace>)
    ensures |steps| == |contexts|
  {
    seq(|contexts|, i requires 0 <= i < |contexts| =>
      VisitContext(resolve, visitor, name, Key(contexts[i].key), contexts[i].value, path))
  }

  /** The directive visits of a context body, one per key. */
  function EntrySteps(resolve: Resolver, visitor: Visitor, fields: Context, path: seq<string>): (steps: seq<Trace>)
    ensures |steps| == |fields|
  {
    seq(|fields|, i requires 0 <= i < |fields| => Visit(resolve, visitor, fields[i].key, fields[i].value, path))
  }

  /** The instances of a block without parameter are visited in list order,
      the `i`-th with position `start + i`. */
  lemma {:induction false} IndexedInOrder(resolve: Resolver, visitor: Visitor, name: string, contexts: seq<Value>,
                                          start: nat, path: seq<string>)
    ensures VisitIndexed(resolve, visitor, name, contexts, start, path)
            == Sequenced(IndexedSteps(resolve, visitor, name, contexts, start, path))
    decreases |contexts|
  {
    if |contexts| > 0 {
      var steps := IndexedSteps(resolve, visitor, name, contexts, start, path);
      IndexedInOrder(resolve, visitor, name, contexts[1..], start + 1, path);
      assert steps[1..] == IndexedSteps(resolve, visitor, name, contexts[1..], start + 1, path);
    }
  }

  /** The instances of a block with parameter are visited in key order,
      each with its key. */
  lemma {:induction false} KeyedInOrder(resolve: Resolver, visitor: Visitor, name: string, contexts: Context,
                                        path: seq<string>)
    ensures VisitKeyed(resolve, visitor, name, contexts, path)
            == Sequenced(KeyedSteps(resolve, visitor, name, contexts, path))
    decreases |contexts|
  {
    if |contexts| > 0 {
      var steps := KeyedSteps(resolve, visitor, name, contexts, path);
      KeyedInOrder(resolve, visitor, name, contexts[1..], path);
      assert steps[1..] == KeyedSteps(resolve, visitor, name, contexts[1..], path);
    }
  }

  /** The directives of a body are visited in key order. */
  lemma {:induction false} EntriesInOrder(resolve: Resolver, visitor: Visitor, fields: Context, path: seq<string>)
    ensures VisitEntries(resolve, visitor, fields, path) == Sequenced(EntrySteps(resolve, visitor, fields, path))
    decreases |fields|
  {
    if |fields| > 0 {
      var steps := EntrySteps(resolve, visitor, fields, path);
      EntriesInOrder(resolve, visitor, fields[1..], path);
      assert steps[1..] == EntrySteps(resolve, visitor, fields[1..], path);
    }
  }

  /** A visited block without parameter that completes: the `visitBlock`
      call, then one visit per instance in list order, the `i`-th entered
      as `enterContext(name, i, ...)`. */
  lemma PositionalInstancesEntered(resolve: Resolver, visitor: Visitor, name: string, v: Value, path: seq<string>)
    requires resolve(path + [name], v) == Ok(BlockWithoutParam)
    requires !visitor.skipBlock(name, Positional(Arrify(v)), LastOr(path, ""))
    requires Traverse.Visit(resolve, visitor, name, v, path).error.None?
    ensures var steps := IndexedSteps(resolve, visitor, name, Arrify(v), 0, path);
            Traverse.Visit(resolve, visitor, name, v, path).events
            == [VisitBlock(name, Positional(Arrify(v)), LastOr(path, ""))] + Flatten(steps)
    ensures var steps := IndexedSteps(resolve, visitor, name, Arrify(v), 0, path);
            forall i :: 0 <= i < |steps| ==>
              && Arrify(v)[i].Obj?
              && |steps[i].events| > 0
              && steps[i].events[0] == EnterContext(name, Index(i), Arrify(v)[i].fields, LastOr(path, ""))
  {
    var steps := IndexedSteps(resolve, visitor, name, Arrify(v), 0, path);
    IndexedInOrder(resolve, visitor, name, Arrify(v), 0, path);
    SequencedCompletes(steps);
    forall i | 0 <= i < |steps|
      ensures && Arrify(v)[i].Obj?
              && |steps[i].events| > 0
              && steps[i].events[0] == EnterContext(name, Index(i), Arrify(v)[i].fields, LastOr(path, ""))
    {
      assert steps[i] == VisitContext(resolve, visitor, name, Index(i), Arrify(v)[i], path);
    }
  }

  /** A visited block with parameter that completes: the `visitBlock` call,
      then one visit per key in key order, each entered as
      `enterContext(name, key, ...)`. */
  lemma KeyedInstancesEntered(resolve: Resolver, visitor: Visitor, name: string, fields: Context, path: seq<string>)
    requires resolve(path + [name], Obj(fields)) == Ok(BlockWithParam)
    requires !visitor.skipBlock(name, Keyed(fields), LastOr(path, ""))
    requires Traverse.Visit(resolve, visitor, name, Obj(fields), path).error.None?
    ensures var steps := KeyedSteps(resolve, visitor, name, fields, path);
            Traverse.Visit(resolve, visitor, name, Obj(fields), path).events
            == [VisitBlock(name, Keyed(fields), LastOr(path, ""))] + Flatten(steps)
    ensures var steps := KeyedSteps(resolve, visitor, name, fields, path);
            forall i :: 0 <= i < |steps| ==>
              && fields[i].value.Obj?
              && |steps[i].events| > 0
              && steps[i].events[0] == EnterContext(name, Key(fields[i].key), fields[i].value.fields, LastOr(path, ""))
  {
    var steps := KeyedSteps(resolve, visitor, name, fields, path);
    KeyedInOrder(resolve, visitor, name, fields, path);
    SequencedCompletes(steps);
    forall i | 0 <= i < |steps|
      ensures && fields[i].value.Obj?
              && |steps[i].events| > 0
              && steps[i].events[0] == EnterContext(name, Key(fields[i].key), fields[i].value.fields, LastOr(path, ""))
    {
      assert steps[i] == VisitContext(resolve, visitor, name, Key(fields[i].key), fields[i].value, path);
    }
  }
}
