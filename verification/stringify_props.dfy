/** Properties of the serializer.

    The serializer is defined as a fold over the traversal's hook calls.
    Its partner here is a direct recursive printer over the tree: a
    directive prints as its lines, a nested block as a blank line, a header
    and its body one level deeper, then a closing brace at the header's
    level; the top-level context prints its body only. The main theorem is
    that the two agree on every input, errors included.
 */
module StringifyProps {

  import opened Wrappers
  import opened Tree
  import opened Utils
  import opened Errors
  import opened ContextName
  import opened DirectiveTypes
  import opened Traverse
  import opened Stringify

  // ---------------------------------------------------------------------
  // The reference printer
  // ---------------------------------------------------------------------

  /** A line at depth `level`: empty lines carry no indentation. */
  function Line(env: Env, level: nat, text: string): string {
    if text == "" then "" else Repeat(env.unit, level) + text
  }

  function LinesAt(env: Env, level: nat, texts: seq<string>): (r: seq<string>)
    ensures |r| == |texts|
  {
    if |texts| == 0 then [] else [Line(env, level, texts[0])] + LinesAt(env, level, texts[1..])
  }

  function ItemLines(env: Env, level: nat, name: string, values: seq<Value>): Result<seq<string>, Error> {
    if |values| == 0 then Ok([])
    else
      var s :- env.stringifyValue(values[0], name);
      var rest :- ItemLines(env, level, name, values[1..]);
      Ok([Line(env, level, name + " " + s + ";")] + rest)
  }

  function PairLines(env: Env, level: nat, name: string, pairs: Context): Result<seq<string>, Error> {
    if |pairs| == 0 then Ok([])
    else
      var k :- env.stringifyValue(Str(pairs[0].key), name);
      var v :- env.stringifyValue(pairs[0].value, name);
      var rest :- PairLines(env, level, name, pairs[1..]);
      Ok([Line(env, level, name + " " + k + " " + v + ";")] + rest)
  }

  /** A simple or nullary directive: `name;`; raw lines as they are; or a
      blank line, then one line per value or per entry. */
  function PrettySimple(env: Env, level: nat, name: string, values: SimpleValues): Result<seq<string>, Error> {
    match values
    case NoValue => Ok([Line(env, level, name + ";")])
    case Items(vs) =>
      if name == RawName then Ok(LinesAt(env, level, RawLines(vs)))
      else
        var ls :- ItemLines(env, level, name, vs);
        Ok([""] + ls)
    case Pairs(ps) =>
      var ls :- PairLines(env, level, name, ps);
      Ok([""] + ls)
  }

  function PrettyDirective(resolve: Resolver, env: Env, level: nat, name: string, v: Value,
                           path: seq<string>): Result<seq<string>, Error>
    decreases Size(v), 2
  {
    var kind :- resolve(path + [name], v);
    match kind
    case Nullary => Ok([Line(env, level, name + ";")])
    case Simple => PrettySimple(env, level, name, Normalize(v))
    case BlockWithoutParam =>
      ArrifySize(v);
      PrettyIndexed(resolve, env, level, name, Arrify(v), 0, path)
    case BlockWithParam =>
      if !v.Obj? then Err(UnsupportedInstance(path + [name], v))
      else PrettyKeyed(resolve, env, level, name, v.fields, path)
  }

  function PrettyIndexed(resolve: Resolver, env: Env, level: nat, name: string, contexts: seq<Value>,
                         start: nat, path: seq<string>): Result<seq<string>, Error>
    decreases ItemsSize(contexts), 1
  {
    if |contexts| == 0 then Ok([])
    else
      var first :- PrettyBlock(resolve, env, level, name, Index(start), contexts[0], path);
      var rest :- PrettyIndexed(resolve, env, level, name, contexts[1..], start + 1, path);
      Ok(first + rest)
  }

  function PrettyKeyed(resolve: Resolver, env: Env, level: nat, name: string, contexts: Context,
                       path: seq<string>): Result<seq<string>, Error>
    decreases FieldsSize(contexts), 1
  {
    if |contexts| == 0 then Ok([])
    else
      var first :- PrettyBlock(resolve, env, level, name, Key(contexts[0].key), contexts[0].value, path);
      var rest :- PrettyKeyed(resolve, env, level, name, contexts[1..], path);
      Ok(first + rest)
  }

  /** A nested block: a blank line, the header, the body one level deeper,
      and the closing brace at the header's level. */
  function PrettyBlock(resolve: Resolver, env: Env, level: nat, name: string, param: Param, instance: Value,
                       path: seq<string>): Result<seq<string>, Error>
    decreases Size(instance), 0
  {
    if !instance.Obj? then Err(UnsupportedInstance(path + [name], instance))
    else
      var header :- Header(env, name, param);
      var body :- PrettyEntries(resolve, env, level + 1, instance.fields, path + [name]);
      Ok(["", Line(env, level, header)] + body + [Line(env, level, "}")])
  }

  function PrettyEntries(resolve: Resolver, env: Env, level: nat, fields: Context,
                         path: seq<string>): Result<seq<string>, Error>
    decreases FieldsSize(fields), 1
  {
    if |fields| == 0 then Ok([])
    else
      var first :- PrettyDirective(resolve, env, level, fields[0].key, fields[0].value, path);
      var rest :- PrettyEntries(resolve, env, level, fields[1..], path);
      Ok(first + rest)
  }

  /** The whole document: the top-level context's body at depth zero. */
  function PrettyDocument(resolve: Resolver, env: Env, context: ContextRef, input: Context): Result<string, Error> {
    var root := SplitRoot(ResolvePath(context));
    var lines :- PrettyEntries(resolve, env, 0, input, root.0 + [root.1]);
    Ok(Join(lines, "\n"))
  }

  // ---------------------------------------------------------------------
  // The fold agrees with the reference printer
  // ---------------------------------------------------------------------

  /** Append the lines of a printer result to the buffer, or fail. */
  function Emit(w: Writer, r: Result<seq<string>, Error>): Result<Writer, Error> {
    match r
    case Err(e) => Err(e)
    case Ok(ls) => Ok(Writer(w.lines + ls, w.level))
  }

  /** Printing two parts in a row is emitting one, then the other. */
  lemma EmitThen(w: Writer, a: Result<seq<string>, Error>, b: Result<seq<string>, Error>)
    ensures (match Emit(w, a) case Err(e) => Err(e) case Ok(w1) => Emit(w1, b))
            == Emit(w, (var x :- a; var y :- b; Ok(x + y)))
  {
    if a.Ok? && b.Ok? {
      assert w.lines + a.value + b.value == w.lines + (a.value + b.value);
    }
  }

  lemma {:induction false} RenderAppend(env: Env, w: Writer, a: seq<Event>, b: seq<Event>)
    ensures Render(env, w, a + b)
            == match Render(env, w, a) case Err(e) => Err(e) case Ok(w1) => Render(env, w1, b)
    decreases |a|
  {
    if |a| == 0 {
      assert a + b == b;
    } else {
      assert (a + b)[0] == a[0] && (a + b)[1..] == a[1..] + b;
      var s := Step(env, w, a[0]);
      if s.Ok? {
        RenderAppend(env, s.value, a[1..], b);
      }
    }
  }

  lemma RunThen(env: Env, w: Writer, t: Trace, next: Trace)
    ensures Run(env, w, Then(t, next))
            == match Run(env, w, t) case Err(e) => Err(e) case Ok(w1) => Run(env, w1, next)
  {
    if t.error.None? {
      RenderAppend(env, w, t.events, next.events);
    }
  }

  lemma RunPrepend(env: Env, w: Writer, e: Event, t: Trace)
    ensures Run(env, w, Prepend(e, t))
            == match Step(env, w, e) case Err(x) => Err(x) case Ok(w1) => Run(env, w1, t)
  {
    assert ([e] + t.events)[0] == e && ([e] + t.events)[1..] == t.events;
  }

  lemma {:induction false} WriteLinesAt(env: Env, w: Writer, texts: seq<string>)
    requires w.level >= 0
    ensures WriteLines(env, w, texts) == Ok(Writer(w.lines + LinesAt(env, w.level, texts), w.level))
    decreases |texts|
  {
    if |texts| == 0 {
      assert w.lines + [] == w.lines;
    } else {
      var w1 := Writer(w.lines + [Line(env, w.level, texts[0])], w.level);
      WritelnLine(env, w, texts[0]);
      WriteLinesAt(env, w1, texts[1..]);
      assert w1.lines + LinesAt(env, w.level, texts[1..]) == w.lines + LinesAt(env, w.level, texts);
    }
  }

  lemma {:induction false} WriteItemsAt(env: Env, w: Writer, name: string, values: seq<Value>)
    requires w.level >= 0
    ensures WriteItems(env, w, name, values) == Emit(w, ItemLines(env, w.level, name, values))
    decreases |values|
  {
    if |values| == 0 {
      assert w.lines + [] == w.lines;
    } else {
      var s := env.stringifyValue(values[0], name);
      if s.Ok? {
        var line := Line(env, w.level, name + " " + s.value + ";");
        var w1 := Writer(w.lines + [line], w.level);
        WritelnLine(env, w, name + " " + s.value + ";");
        assert WriteItems(env, w, name, values) == WriteItems(env, w1, name, values[1..]);
        WriteItemsAt(env, w1, name, values[1..]);
        var rest := ItemLines(env, w.level, name, values[1..]);
        if rest.Ok? {
          assert ItemLines(env, w.level, name, values) == Ok([line] + rest.value);
          assert w1.lines + rest.value == w.lines + ([line] + rest.value);
        } else {
          assert ItemLines(env, w.level, name, values) == Err(rest.error);
        }
      } else {
        assert WriteItems(env, w, name, values) == Err(s.error);
        assert ItemLines(env, w.level, name, values) == Err(s.error);
      }
    }
  }

  lemma {:induction false} WritePairsAt(env: Env, w: Writer, name: string, pairs: Context)
    requires w.level >= 0
    ensures WritePairs(env, w, name, pairs) == Emit(w, PairLines(env, w.level, name, pairs))
    decreases |pairs|
  {
    if |pairs| == 0 {
      assert w.lines + [] == w.lines;
    } else {
      var k := env.stringifyValue(Str(pairs[0].key), name);
      var v := env.stringifyValue(pairs[0].value, name);
      if k.Ok? && v.Ok? {
        var line := Line(env, w.level, name + " " + k.value + " " + v.value + ";");
        var w1 := Writer(w.lines + [line], w.level);
        WritelnLine(env, w, name + " " + k.value + " " + v.value + ";");
        WritePairsAt(env, w1, name, pairs[1..]);
        var rest := PairLines(env, w.level, name, pairs[1..]);
        if rest.Ok? {
          assert w1.lines + rest.value == w.lines + ([line] + rest.value);
        }
      }
    }
  }

  lemma RunSingle(env: Env, w: Writer, e: Event)
    ensures Run(env, w, Trace([e], None)) == Step(env, w, e)
  {
    assert [e][0] == e && [e][1..] == [];
    match Step(env, w, e)
    case Err(_) =>
    case Ok(w1) => assert Render(env, w1, []) == Ok(w1);
  }

  /** Inside a context, `writeln` appends the reference line. */
  lemma WritelnLine(env: Env, w: Writer, text: string)
    requires w.level >= 0
    ensures Writeln(env, w, text) == Ok(Writer(w.lines + [Line(env, w.level, text)], w.level))
  {
  }

  /** One simple-directive hook call writes exactly the reference lines. */
  lemma StepSimple(env: Env, w: Writer, name: string, values: SimpleValues, context: string)
    requires w.level >= 0
    ensures Step(env, w, VisitSimple(name, values, context)) == Emit(w, PrettySimple(env, w.level, name, values))
  {
    match values
    case NoValue =>
    case Items(vs) =>
      if name == RawName {
        WriteLinesAt(env, w, RawLines(vs));
      } else {
        WriteItemsAt(env, Blank(w), name, vs);
        var ls := ItemLines(env, w.level, name, vs);
        if ls.Ok? {
          assert Blank(w).lines + ls.value == w.lines + ([""] + ls.value);
        }
      }
    case Pairs(ps) =>
      WritePairsAt(env, Blank(w), name, ps);
      var ls := PairLines(env, w.level, name, ps);
      if ls.Ok? {
        assert Blank(w).lines + ls.value == w.lines + ([""] + ls.value);
      }
  }

  lemma {:induction false} VisitPrints(resolve: Resolver, env: Env, w: Writer, name: string, v: Value, path: seq<string>)
    requires w.level >= 0
    ensures Run(env, w, Traverse.Visit(resolve, NeverSkip(), name, v, path))
            == Emit(w, PrettyDirective(resolve, env, w.level, name, v, path))
    decreases Size(v), 2
  {
    var parent := LastOr(path, "");
    match resolve(path + [name], v)
    case Err(_) =>
    case Ok(Nullary) =>
      RunSingle(env, w, VisitSimple(name, NoValue, parent));
      StepSimple(env, w, name, NoValue, parent);
    case Ok(Simple) =>
      RunSingle(env, w, VisitSimple(name, Normalize(v), parent));
      StepSimple(env, w, name, Normalize(v), parent);
    case Ok(BlockWithoutParam) =>
      ArrifySize(v);
      var contexts := Arrify(v);
      RunPrepend(env, w, VisitBlock(name, Positional(contexts), parent),
                 VisitIndexed(resolve, NeverSkip(), name, contexts, 0, path));
      IndexedPrints(resolve, env, w, name, contexts, 0, path);
    case Ok(BlockWithParam) =>
      if v.Obj? {
        RunPrepend(env, w, VisitBlock(name, Keyed(v.fields), parent),
                   VisitKeyed(resolve, NeverSkip(), name, v.fields, path));
        KeyedPrints(resolve, env, w, name, v.fields, path);
      }
  }

  lemma {:induction false} IndexedPrints(resolve: Resolver, env: Env, w: Writer, name: string, contexts: seq<Value>,
                                         start: nat, path: seq<string>)
    requires w.level >= 0
    ensures Run(env, w, VisitIndexed(resolve, NeverSkip(), name, contexts, start, path))
            == Emit(w, PrettyIndexed(resolve, env, w.level, name, contexts, start, path))
    decreases ItemsSize(contexts), 1
  {
    if |contexts| == 0 {
      assert w.lines + [] == w.lines;
    } else {
      var first := VisitContext(resolve, NeverSkip(), name, Index(start), contexts[0], path);
      var rest := VisitIndexed(resolve, NeverSkip(), name, contexts[1..], start + 1, path);
      RunThen(env, w, first, rest);
      ContextPrints(resolve, env, w, name, Index(start), contexts[0], path);
      var a := PrettyBlock(resolve, env, w.level, name, Index(start), contexts[0], path);
      if a.Ok? {
        IndexedPrints(resolve, env, Writer(w.lines + a.value, w.level), name, contexts[1..], start + 1, path);
      }
      EmitThen(w, a, PrettyIndexed(resolve, env, w.level, name, contexts[1..], start + 1, path));
    }
  }

  lemma {:induction false} KeyedPrints(resolve: Resolver, env: Env, w: Writer, name: string, contexts: Context,
                                       path: seq<string>)
    requires w.level >= 0
    ensures Run(env, w, VisitKeyed(resolve, NeverSkip(), name, contexts, path))
            == Emit(w, PrettyKeyed(resolve, env, w.level, name, contexts, path))
    decreases FieldsSize(contexts), 1
  {
    if |contexts| == 0 {
      assert w.lines + [] == w.lines;
    } else {
      var first := VisitContext(resolve, NeverSkip(), name, Key(contexts[0].key), contexts[0].value, path);
      var rest := VisitKeyed(resolve, NeverSkip(), name, contexts[1..], path);
      RunThen(env, w, first, rest);
      ContextPrints(resolve, env, w, name, Key(contexts[0].key), contexts[0].value, path);
      var a := PrettyBlock(resolve, env, w.level, name, Key(contexts[0].key), contexts[0].value, path);
      if a.Ok? {
        KeyedPrints(resolve, env, Writer(w.lines + a.value, w.level), name, contexts[1..], path);
      }
      EmitThen(w, a, PrettyKeyed(resolve, env, w.level, name, contexts[1..], path));
    }
  }

  /** The `enter` hook inside a context: a blank line, then the header. */
  lemma EnterStep(env: Env, w: Writer, name: string, param: Param, fields: Context, parent: string)
    requires w.level >= 0
    ensures Step(env, w, EnterContext(name, param, fields, parent))
            == match Header(env, name, param)
               case Err(e) => Err(e)
               case Ok(h) => Ok(Writer(w.lines + ["", Line(env, w.level, h)], w.level + 1))
  {
    var header := Header(env, name, param);
    if header.Ok? {
      assert Blank(w).lines + [Line(env, w.level, header.value)] == w.lines + ["", Line(env, w.level, header.value)];
    }
  }

  /** After the header and the body, the `leave` hook closes the block. */
  lemma CloseBlock(env: Env, w: Writer, header: string, b: Result<seq<string>, Error>, leave: Event)
    requires w.level >= 0 && leave.LeaveContext?
    ensures (match Emit(Writer(w.lines + ["", Line(env, w.level, header)], w.level + 1), b)
             case Err(e) => Err(e)
             case Ok(w2) => Run(env, w2, Trace([leave], None)))
            == Emit(w, match b
                       case Err(e) => Err(e)
                       case Ok(ls) => Ok(["", Line(env, w.level, header)] + ls + [Line(env, w.level, "}")]))
  {
    if b.Ok? {
      var w2 := Writer(w.lines + ["", Line(env, w.level, header)] + b.value, w.level + 1);
      var w3 := Writer(w2.lines + [Line(env, w.level, "}")], w.level);
      assert Step(env, w2, leave) == Ok(w3);
      assert Render(env, w2, [leave]) == Ok(w3) by {
        assert [leave][1..] == [];
      }
      assert w3.lines == w.lines + (["", Line(env, w.level, header)] + b.value + [Line(env, w.level, "}")]);
    }
  }

  lemma {:induction false} ContextPrints(resolve: Resolver, env: Env, w: Writer, name: string, param: Param,
                                         instance: Value, path: seq<string>)
    requires w.level >= 0
    ensures Run(env, w, VisitContext(resolve, NeverSkip(), name, param, instance, path))
            == Emit(w, PrettyBlock(resolve, env, w.level, name, param, instance, path))
    decreases Size(instance), 0
  {
    if instance.Obj? {
      var parent := LastOr(path, "");
      var enter := EnterContext(name, param, instance.fields, parent);
      var leave := LeaveContext(name, param, instance.fields, parent);
      var body := VisitEntries(resolve, NeverSkip(), instance.fields, path + [name]);
      RunPrepend(env, w, enter, Then(body, Trace([leave], None)));
      EnterStep(env, w, name, param, instance.fields, parent);
      var header := Header(env, name, param);
      if header.Ok? {
        var w1 := Writer(w.lines + ["", Line(env, w.level, header.value)], w.level + 1);
        RunThen(env, w1, body, Trace([leave], None));
        EntriesPrints(resolve, env, w1, instance.fields, path + [name]);
        CloseBlock(env, w, header.value, PrettyEntries(resolve, env, w.level + 1, instance.fields, path + [name]), leave);
      }
    }
  }


  lemma {:induction false} EntriesPrints(resolve: Resolver, env: Env, w: Writer, fields: Context, path: seq<string>)
    requires w.level >= 0
    ensures Run(env, w, VisitEntries(resolve, NeverSkip(), fields, path))
            == Emit(w, PrettyEntries(resolve, env, w.level, fields, path))
    decreases FieldsSize(fields), 1
  {
    if |fields| == 0 {
      assert w.lines + [] == w.lines;
    } else {
      var first := Traverse.Visit(resolve, NeverSkip(), fields[0].key, fields[0].value, path);
      var rest := VisitEntries(resolve, NeverSkip(), fields[1..], path);
      RunThen(env, w, first, rest);
      VisitPrints(resolve, env, w, fields[0].key, fields[0].value, path);
      var a := PrettyDirective(resolve, env, w.level, fields[0].key, fields[0].value, path);
      if a.Ok? {
        EntriesPrints(resolve, env, Writer(w.lines + a.value, w.level), fields[1..], path);
      }
      EmitThen(w, a, PrettyEntries(resolve, env, w.level, fields[1..], path));
    }
  }

  /** `stringify` prints exactly what the reference printer prints, and
      fails with the same error when either fails. */
  lemma StringifyIsPretty(context: ContextRef, input: Context, opts: Options)
    ensures Stringify.Stringify(context, input, opts)
            == PrettyDocument(ResolverOf(opts), EnvOf(opts), context, input)
  {
    var resolve := ResolverOf(opts);
    var env := EnvOf(opts);
    var root := SplitRoot(ResolvePath(context));
    var path := root.0 + [root.1];
    var parent := LastOr(root.0, "");
    var enter := EnterContext(root.1, Index(0), input, parent);
    var leave := LeaveContext(root.1, Index(0), input, parent);
    var body := VisitEntries(resolve, NeverSkip(), input, path);
    var w0 := Writer([], -1);
    var w1 := Writer([], 0);
    RunPrepend(env, w0, enter, Then(body, Trace([leave], None)));
    assert Step(env, w0, enter) == Ok(w1);
    RunThen(env, w1, body, Trace([leave], None));
    EntriesPrints(resolve, env, w1, input, path);
    var b := PrettyEntries(resolve, env, 0, input, path);
    if b.Ok? {
      var w2 := Writer([] + b.value, 0);
      assert [] + b.value == b.value;
      assert Render(env, w2, [leave]) == Ok(Writer(b.value, -1)) by {
        assert Step(env, w2, leave) == Ok(Writer(b.value, -1));
        assert [leave][1..] == [];
      }
    }
  }

  // ---------------------------------------------------------------------
  // Printing single directives and blocks
  // ---------------------------------------------------------------------

  /** A context with one directive prints as that directive. */
  lemma OneEntry(resolve: Resolver, env: Env, level: nat, f: Field, path: seq<string>, lines: seq<string>)
    requires PrettyDirective(resolve, env, level, f.key, f.value, path) == Ok(lines)
    ensures PrettyEntries(resolve, env, level, [f], path) == Ok(lines)
  {
    assert [f][0] == f && [f][1..] == [];
    assert PrettyEntries(resolve, env, level, [], path) == Ok([]);
    assert lines + [] == lines;
  }

  /** A simple directive with one scalar value prints a blank line, then
      `name value;` at the current depth. */
  lemma ScalarDirective(resolve: Resolver, env: Env, level: nat, name: string, v: Value, s: string,
                        path: seq<string>)
    requires resolve(path + [name], v) == Ok(Simple) && IsScalar(v) && name != RawName
    requires env.stringifyValue(v, name) == Ok(s)
    ensures PrettyDirective(resolve, env, level, name, v, path)
            == Ok(["", Line(env, level, name + " " + s + ";")])
  {
    assert Normalize(v) == Items([v]);
    assert [v][0] == v && [v][1..] == [];
    assert ItemLines(env, level, name, []) == Ok([]);
    var line := Line(env, level, name + " " + s + ";");
    assert ItemLines(env, level, name, [v]) == Ok([line] + []);
    assert [line] + [] == [line];
    assert PrettySimple(env, level, name, Items([v])) == Ok([""] + [line]);
    assert [""] + [line] == ["", line];
  }

  /** A block with parameter holding one instance prints a blank line, the
      header `name param {`, the body one level deeper and a closing brace. */
  lemma KeyedBlock(resolve: Resolver, env: Env, level: nat, name: string, key: string, shown: string,
                   body: Context, path: seq<string>, lines: seq<string>)
    requires resolve(path + [name], Obj([Field(key, Obj(body))])) == Ok(BlockWithParam)
    requires env.stringifyValue(Str(key), name) == Ok(shown)
    requires PrettyEntries(resolve, env, level + 1, body, path + [name]) == Ok(lines)
    ensures PrettyDirective(resolve, env, level, name, Obj([Field(key, Obj(body))]), path)
            == Ok(["", Line(env, level, name + " " + shown + " {")] + lines + [Line(env, level, "}")])
  {
    var block := ["", Line(env, level, name + " " + shown + " {")] + lines + [Line(env, level, "}")];
    var instances := [Field(key, Obj(body))];
    assert Header(env, name, Key(key)) == Ok(name + " " + shown + " {");
    assert PrettyBlock(resolve, env, level, name, Key(key), Obj(body), path) == Ok(block);
    assert instances[0].key == key && instances[0].value == Obj(body) && instances[1..] == [];
    assert PrettyKeyed(resolve, env, level, name, [], path) == Ok([]);
    assert block + [] == block;
  }

  // ---------------------------------------------------------------------
  // A worked example: one parameterised block under `http`
  // ---------------------------------------------------------------------

  /** Text with no whitespace, which `trim` leaves alone. */
  predicate Unspaced(s: string) {
    forall k :: 0 <= k < |s| ==> !IsJsWhitespace(s[k])
  }

  /** `location` under `http` is not in the built-in set and carries no
      `{}` marker, so a map of objects there is a parameterised block. */
  lemma LocationIsParameterised(uri: string, body: Context)
    ensures Classify(BuiltinBlocksWithoutParam, ["main", "http", "location"], Obj([Field(uri, Obj(body))]))
            == Ok(BlockWithParam)
  {
    assert Join(["main", "http", "location"], "/") == "main/http/location";
    assert !EndsWith("location", ParameterlessMarker);
  }

  /** The default options print a string as its trimmed text and indent
      with tabs. */
  lemma DefaultPrintsStr(s: string, name: string)
    ensures EnvOf(DefaultOptions()).stringifyValue(Str(s), name) == Ok(Trim(s))
    ensures EnvOf(DefaultOptions()).unit == "\t"
  {
    var env := EnvOf(DefaultOptions());
    assert env.stringifyValue == DefaultStringifyValue;
    assert DefaultStringifyValue(Str(s), name) == Ok(Trim(s));
  }

  /** The three non-blank lines of the example, indented with tabs. */
  lemma LocationText(env: Env, uri: string, url: string)
    requires env.unit == "\t"
    ensures Line(env, 0, "location" + " " + uri + " {") == "location " + uri + " {"
    ensures Line(env, 1, "proxy_pass" + " " + url + ";") == "\tproxy_pass " + url + ";"
    ensures Line(env, 0, "}") == "}"
  {
    assert Repeat("\t", 0) == "" && Repeat("\t", 1) == "\t";
    assert "location" + " " + uri + " {" == "location " + uri + " {";
    assert "\t" + ("proxy_pass" + " " + url + ";") == "\tproxy_pass " + url + ";";
  }

  lemma HttpRootPath()
    ensures var root := SplitRoot(ResolvePath(Named("http")));
            root.0 + [root.1] == ["main", "http"]
  {
    assert ResolvePath(Named("http")) == ["main", "http"];
  }

  /** The default resolver on the two paths of the example. */
  lemma DefaultResolvesLocation(uri: string, url: string)
    ensures DefaultResolver()(["main", "http", "location"], Obj([Field(uri, Obj([Field("proxy_pass", Str(url))]))]))
            == Ok(BlockWithParam)
    ensures DefaultResolver()(["main", "http", "location", "proxy_pass"], Str(url)) == Ok(Simple)
  {
    var body := [Field("proxy_pass", Str(url))];
    LocationIsParameterised(uri, body);
    assert DefaultResolver()(["main", "http", "location"], Obj([Field(uri, Obj(body))]))
           == Classify(BuiltinBlocksWithoutParam, ["main", "http", "location"], Obj([Field(uri, Obj(body))]));
    assert DefaultResolver()(["main", "http", "location", "proxy_pass"], Str(url))
           == Classify(BuiltinBlocksWithoutParam, ["main", "http", "location", "proxy_pass"], Str(url));
  }

  /** Unspaced text prints as itself under the default options. */
  lemma DefaultShowsUnspaced(s: string, name: string)
    requires Unspaced(s)
    ensures EnvOf(DefaultOptions()).stringifyValue(Str(s), name) == Ok(s)
  {
    DefaultPrintsStr(s, name);
  }

  lemma LocationBody(resolve: Resolver, env: Env, url: string)
    requires resolve(["main", "http", "location", "proxy_pass"], Str(url)) == Ok(Simple)
    requires env.stringifyValue(Str(url), "proxy_pass") == Ok(url)
    ensures PrettyEntries(resolve, env, 1, [Field("proxy_pass", Str(url))], ["main", "http", "location"])
            == Ok(["", Line(env, 1, "proxy_pass" + " " + url + ";")])
  {
    var inner := ["main", "http", "location"];
    assert inner + ["proxy_pass"] == ["main", "http", "location", "proxy_pass"];
    assert "proxy_pass" != RawName;
    var a := Line(env, 1, "proxy_pass" + " " + url + ";");
    ScalarDirective(resolve, env, 1, "proxy_pass", Str(url), url, inner);
    OneEntry(resolve, env, 1, Field("proxy_pass", Str(url)), inner, ["", a]);
  }

  lemma LocationDirective(resolve: Resolver, env: Env, uri: string, url: string)
    requires resolve(["main", "http", "location"], Obj([Field(uri, Obj([Field("proxy_pass", Str(url))]))]))
             == Ok(BlockWithParam)
    requires resolve(["main", "http", "location", "proxy_pass"], Str(url)) == Ok(Simple)
    requires env.stringifyValue(Str(url), "proxy_pass") == Ok(url)
    requires env.stringifyValue(Str(uri), "location") == Ok(uri)
    ensures PrettyDirective(resolve, env, 0, "location",
                            Obj([Field(uri, Obj([Field("proxy_pass", Str(url))]))]), ["main", "http"])
            == Ok(["", Line(env, 0, "location" + " " + uri + " {")]
                  + ["", Line(env, 1, "proxy_pass" + " " + url + ";")]
                  + [Line(env, 0, "}")])
  {
    var path := ["main", "http"];
    var directive := Field("proxy_pass", Str(url));
    var a := Line(env, 1, "proxy_pass" + " " + url + ";");
    LocationBody(resolve, env, url);
    assert path + ["location"] == ["main", "http", "location"];
    KeyedBlock(resolve, env, 0, "location", uri, uri, [directive], path, ["", a]);
  }

  /** A document in the `http` context is its entries' lines at depth zero. */
  lemma HttpDocument(resolve: Resolver, env: Env, input: Context, lines: seq<string>)
    requires PrettyEntries(resolve, env, 0, input, ["main", "http"]) == Ok(lines)
    ensures PrettyDocument(resolve, env, Named("http"), input) == Ok(Join(lines, "\n"))
  {
    HttpRootPath();
  }

  lemma LocationLines(resolve: Resolver, env: Env, uri: string, url: string)
    requires resolve(["main", "http", "location"], Obj([Field(uri, Obj([Field("proxy_pass", Str(url))]))]))
             == Ok(BlockWithParam)
    requires resolve(["main", "http", "location", "proxy_pass"], Str(url)) == Ok(Simple)
    requires env.stringifyValue(Str(url), "proxy_pass") == Ok(url)
    requires env.stringifyValue(Str(uri), "location") == Ok(uri)
    requires env.unit == "\t"
    ensures PrettyEntries(resolve, env, 0,
              [Field("location", Obj([Field(uri, Obj([Field("proxy_pass", Str(url))]))]))], ["main", "http"])
            == Ok(["", "location " + uri + " {", "", "\tproxy_pass " + url + ";", "}"])
  {
    var block := Obj([Field(uri, Obj([Field("proxy_pass", Str(url))]))]);
    var h := Line(env, 0, "location" + " " + uri + " {");
    var a := Line(env, 1, "proxy_pass" + " " + url + ";");
    var c := Line(env, 0, "}");
    LocationDirective(resolve, env, uri, url);
    OneEntry(resolve, env, 0, Field("location", block), ["main", "http"], ["", h] + ["", a] + [c]);
    LocationText(env, uri, url);
    assert ["", h] + ["", a] + [c] == ["", "location " + uri + " {", "", "\tproxy_pass " + url + ";", "}"];
  }

  /** Scenario: `{ location: { <uri>: { proxy_pass: <url> } } }` in the
      `http` context, with no whitespace in either text, prints a blank
      line, the block header, a blank line, the indented directive and the
      closing brace. */
  lemma LocationExample(uri: string, url: string)
    requires Unspaced(uri) && Unspaced(url)
    ensures Stringify.Stringify(Named("http"),
              [Field("location", Obj([Field(uri, Obj([Field("proxy_pass", Str(url))]))]))],
              DefaultOptions())
            == Ok(Join(["", "location " + uri + " {", "", "\tproxy_pass " + url + ";", "}"], "\n"))
  {
    var opts := DefaultOptions();
    var env := EnvOf(opts);
    var input := [Field("location", Obj([Field(uri, Obj([Field("proxy_pass", Str(url))]))]))];
    StringifyIsPretty(Named("http"), input, opts);
    assert ResolverOf(opts) == DefaultResolver();
    DefaultResolvesLocation(uri, url);
    DefaultShowsUnspaced(uri, "location");
    DefaultShowsUnspaced(url, "proxy_pass");
    DefaultPrintsStr("", "");
    LocationLines(DefaultResolver(), env, uri, url);
    HttpDocument(DefaultResolver(), env, input, ["", "location " + uri + " {", "", "\tproxy_pass " + url + ";", "}"]);
  }
}
