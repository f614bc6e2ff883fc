/** The serializer (`src/stringify.ts`).

    `stringify` is a visitor over the traversal: each hook call writes
    lines to a buffer, and the output is the buffer joined with newlines.
    Here the visitor is a left fold over the traversal's event trace, with
    the buffer and the indentation level as its state. A thrown error ends
    the call without output: the first error in execution order wins, be it
    one raised by a hook (a value the stringifier rejects, a negative
    indentation count) or the one that stopped the traversal.
 */
module Stringify {

  import opened Wrappers
  import opened Tree
  import opened Utils
  import opened Errors
  import opened ContextName
  import opened DirectiveTypes
  import opened Traverse

  /** The `indentation` option: unset, a number of spaces, or a string. */
  datatype Indentation = DefaultIndent | Spaces(count: nat) | Literal(unit: string)

  function IndentUnit(i: Indentation): (u: string)
    ensures i.DefaultIndent? ==> u == "\t"
    ensures i.Spaces? ==> |u| == i.count && forall k :: 0 <= k < |u| ==> u[k] == ' '
    ensures i.Literal? ==> u == i.unit
  {
    match i
    case DefaultIndent => "\t"
    case Spaces(n) => RepeatSpaces(n); Repeat(" ", n)
    case Literal(s) => s
  }

  /** `stringifyValue(value, name)`: a caller-supplied one may throw. */
  type ValueStringifier = (Value, string) -> Result<string, Error>

  /** `NgxStringifyOptions`. */
  datatype Options = Options(
    blocksWithoutParam: Option<set<string>>,
    resolver: Option<Resolver>,
    indentation: Indentation,
    stringifyValue: Option<ValueStringifier>)

  function DefaultOptions(): Options {
    Options(None, None, DefaultIndent, None)
  }

  const ScalarExpected := "Expected a scalar value, null or undefined, but got: "

  /** `defaultStringifyValue(value)`: `null` prints as nothing, booleans as
      `on`/`off`, strings and numbers as their trimmed text; anything else
      is a `TypeError` (`typeof` of an array or object is `object`). */
  function DefaultStringifyValue(v: Value, name: string): (r: Result<string, Error>)
    ensures r.Err? <==> v.Arr? || v.Obj?
    ensures r.Err? ==> r.error == TypeError(ScalarExpected + "object")
    ensures v.Null? ==> r == Ok("")
    ensures v == Bool(true) ==> r == Ok("on")
    ensures v == Bool(false) ==> r == Ok("off")
    ensures v.Str? ==> r == Ok(Trim(v.s))
    ensures v.Num? ==> r == Ok(Trim(NumberToString(v.n)))
  {
    match v
    case Null => Ok("")
    case Bool(b) => Ok(if b then "on" else "off")
    case Str(s) => Ok(Trim(s))
    case Num(n) => Ok(Trim(NumberToString(n)))
    case _ => Err(TypeError(ScalarExpected + "object"))
  }

  /** `String(value)`: an array joins its elements' texts with commas, a
      `null` element counting as empty; a plain object is
      `[object Object]`. */
  function JsString(v: Value): (r: string)
    ensures v.Str? ==> r == v.s
    ensures v.Null? ==> r == "null"
    ensures v.Bool? ==> r == (if v.b then "true" else "false")
    decreases Size(v), 0
  {
    match v
    case Null => "null"
    case Bool(b) => if b then "true" else "false"
    case Str(s) => s
    case Num(n) => NumberToString(n)
    case Arr(items) => Join(JsStrings(items), ",")
    case Obj(_) => "[object Object]"
  }

  function JsStrings(items: seq<Value>): (r: seq<string>)
    ensures |r| == |items|
    decreases ItemsSize(items), 1
  {
    if |items| == 0 then []
    else
      assert ItemsSize(items) == Size(items[0]) + ItemsSize(items[1..]) && Size(items[0]) >= 1;
      [if items[0].Null? then "" else JsString(items[0])] + JsStrings(items[1..])
  }

  /** `values.flatMap(val => String(val).split('\n'))`: the lines of a
      `__raw` directive. */
  function RawLines(values: seq<Value>): (r: seq<string>)
    ensures forall i :: 0 <= i < |r| ==> '\n' !in r[i]
    ensures |r| >= |values|
    ensures |values| == 1 ==> Join(r, "\n") == JsString(values[0])
  {
    if |values| == 0 then []
    else
      var lines := SplitOn(JsString(values[0]), '\n');
      assert |values| == 1 ==> RawLines(values[1..]) == [] && lines + [] == lines;
      lines + RawLines(values[1..])
  }

  /** The lines of several `__raw` values are the lines of each value, in
      value order. */
  lemma {:induction false} RawLinesAppend(a: seq<Value>, b: seq<Value>)
    ensures RawLines(a + b) == RawLines(a) + RawLines(b)
    decreases |a|
  {
    if |a| > 0 {
      assert (a + b)[0] == a[0] && (a + b)[1..] == a[1..] + b;
      RawLinesAppend(a[1..], b);
    } else {
      assert a + b == b;
    }
  }

  /** The name of the directive whose lines are written verbatim. */
  const RawName := "__raw"

  /** The serializer's fixed choices for one call. */
  datatype Env = Env(unit: string, stringifyValue: ValueStringifier)

  /** The output buffer and the current indentation level, `-1` outside
      the top-level context. */
  datatype Writer = Writer(lines: seq<string>, level: int)

  /** `writeln('')`: an empty line is never indented. */
  function Blank(w: Writer): (r: Writer)
    ensures r.lines == w.lines + [""] && r.level == w.level
  {
    Writer(w.lines + [""], w.level)
  }

  /** `writeln(line)` for a non-empty line inside a context: `level`
      copies of the unit, then the line. */
  function Indented(env: Env, w: Writer, line: string): (r: Writer)
    requires w.level >= 0
    ensures r.level == w.level && |r.lines| == |w.lines| + 1 && r.lines[..|w.lines|] == w.lines
    ensures line != "" ==> r.lines[|w.lines|] == Repeat(env.unit, w.level) + line
  {
    Writer(w.lines + [if line == "" then "" else Repeat(env.unit, w.level) + line], w.level)
  }

  /** `writeln(line)`: an empty line gets no indentation; a non-empty one
      gets `level` copies of the unit, which fails when `level` is
      negative (`repeat` with a negative count). */
  function Writeln(env: Env, w: Writer, line: string): (r: Result<Writer, Error>)
    ensures r.Err? <==> line != "" && w.level < 0
    ensures line == "" ==> r == Ok(Blank(w))
    ensures r.Ok? ==> r.value.level == w.level && |r.value.lines| == |w.lines| + 1
    ensures r.Ok? ==> r.value.lines[..|w.lines|] == w.lines
    ensures line != "" && w.level >= 0 ==>
              r.Ok? && r.value.lines[|w.lines|] == Repeat(env.unit, w.level) + line
  {
    if line == "" then Ok(Blank(w))
    else if w.level < 0 then Err(RangeError("Invalid count value: " + NumberToString(w.level)))
    else Ok(Indented(env, w, line))
  }

  function WriteLines(env: Env, w: Writer, lines: seq<string>): (r: Result<Writer, Error>)
    ensures r.Ok? ==> r.value.level == w.level
    decreases |lines|
  {
    if |lines| == 0 then Ok(w)
    else
      var w1 :- Writeln(env, w, lines[0]);
      WriteLines(env, w1, lines[1..])
  }

  /** `name v;` for each value, each value stringified just before its
      line is written. */
  function WriteItems(env: Env, w: Writer, name: string, values: seq<Value>): (r: Result<Writer, Error>)
    ensures r.Ok? ==> r.value.level == w.level
    decreases |values|
  {
    if |values| == 0 then Ok(w)
    else
      var s :- env.stringifyValue(values[0], name);
      var w1 :- Writeln(env, w, name + " " + s + ";");
      WriteItems(env, w1, name, values[1..])
  }

  /** `name k v;` for each entry, the key stringified before the value. */
  function WritePairs(env: Env, w: Writer, name: string, pairs: Context): (r: Result<Writer, Error>)
    ensures r.Ok? ==> r.value.level == w.level
    decreases |pairs|
  {
    if |pairs| == 0 then Ok(w)
    else
      var k :- env.stringifyValue(Str(pairs[0].key), name);
      var v :- env.stringifyValue(pairs[0].value, name);
      var w1 :- Writeln(env, w, name + " " + k + " " + v + ";");
      WritePairs(env, w1, name, pairs[1..])
  }

  /** The header of a nested context: a parameterless block drops the `{}`
      marker from its name; a parameterised one keeps the name as is and
      prints the stringified parameter. The marker is not empty, so the
      corrected `TrimSuffix` used here gives what `trimSuffix` as written
      gives (`Utils.TrimSuffixAgrees`). */
  function Header(env: Env, name: string, param: Param): (r: Result<string, Error>)
    ensures param.Index? ==> r == Ok(TrimSuffix(name, ParameterlessMarker) + " {")
    ensures param.Key? && r.Ok? ==>
              exists s :: env.stringifyValue(Str(param.k), name) == Ok(s) && r.value == name + " " + s + " {"
    ensures param.Key? && r.Err? ==> env.stringifyValue(Str(param.k), name) == Err(r.error)
  {
    match param
    case Index(_) => Ok(TrimSuffix(name, ParameterlessMarker) + " {")
    case Key(k) =>
      var s :- env.stringifyValue(Str(k), name);
      Ok(name + " " + s + " {")
  }

  /** The visitor: one hook call applied to the writer. */
  function Step(env: Env, w: Writer, e: Event): (r: Result<Writer, Error>)
    ensures r.Ok? && e.EnterContext? ==> r.value.level == w.level + 1
    ensures r.Ok? && e.LeaveContext? ==> r.value.level == w.level - 1
    ensures r.Ok? && (e.VisitSimple? || e.VisitBlock?) ==> r.value.level == w.level
  {
    match e
    case VisitSimple(name, NoValue, _) => Writeln(env, w, name + ";")
    case VisitSimple(name, Items(values), _) =>
      if name == RawName then WriteLines(env, w, RawLines(values))
      else WriteItems(env, Blank(w), name, values)
    case VisitSimple(name, Pairs(pairs), _) =>
      WritePairs(env, Blank(w), name, pairs)
    case VisitBlock(_, _, _) => Ok(w)
    case EnterContext(name, param, _, _) =>
      if w.level >= 0 then
        var header :- Header(env, name, param);
        var w1 := Indented(env, Blank(w), header);
        Ok(Writer(w1.lines, w1.level + 1))
      else Ok(Writer(w.lines, w.level + 1))
    case LeaveContext(_, _, _, _) =>
      var level := w.level - 1;
      if level >= 0 then Ok(Indented(env, Writer(w.lines, level), "}"))
      else Ok(Writer(w.lines, level))
  }

  /** The hook calls of a trace applied in order; the first error stops. */
  function Render(env: Env, w: Writer, events: seq<Event>): Result<Writer, Error>
    decreases |events|
  {
    if |events| == 0 then Ok(w)
    else
      var w1 :- Step(env, w, events[0]);
      Render(env, w1, events[1..])
  }

  /** A whole trace: its events, then the error that stopped it, if any. */
  function Run(env: Env, w: Writer, t: Trace): (r: Result<Writer, Error>)
    ensures t.error.Some? ==> r.Err?
  {
    var w1 :- Render(env, w, t.events);
    if t.error.Some? then Err(t.error.value) else Ok(w1)
  }

  /** The classifier `stringify` uses: a supplied resolver wins over
      `blocksWithoutParam`, which defaults to the built-in set. */
  function ResolverOf(opts: Options): (r: Resolver)
    ensures opts.resolver.Some? ==> r == opts.resolver.value
    ensures opts.resolver.None? && opts.blocksWithoutParam.Some? ==>
              r == CreateResolver(opts.blocksWithoutParam.value)
    ensures opts.resolver.None? && opts.blocksWithoutParam.None? ==> r == DefaultResolver()
  {
    if opts.resolver.Some? then opts.resolver.value
    else if opts.blocksWithoutParam.Some? then CreateResolver(opts.blocksWithoutParam.value)
    else DefaultResolver()
  }

  function EnvOf(opts: Options): (env: Env)
    ensures env.unit == IndentUnit(opts.indentation)
    ensures opts.stringifyValue.None? ==> env.stringifyValue == DefaultStringifyValue
  {
    Env(IndentUnit(opts.indentation),
        if opts.stringifyValue.Some? then opts.stringifyValue.value else DefaultStringifyValue)
  }

  /** `stringify(context, input, opts)`: the nginx text of `input`. */
  function Stringify(context: ContextRef, input: Context, opts: Options): Result<string, Error> {
    var trace := Traverse.Traverse(ResolverOf(opts), NeverSkip(), context, input);
    var w :- Run(EnvOf(opts), Writer([], -1), trace);
    Ok(Join(w.lines, "\n"))
  }
}
