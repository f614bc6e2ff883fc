/** The directive-type classifier (`src/directiveTypes.ts`).

    A directive value is classified by shape, by its path (context path plus
    directive name) and by a set of slash-joined paths of blocks that take
    no parameter. The order of the tests is the disambiguation rule: the
    same plain object can be a parameterless block, a family of
    parameterised blocks, or a key/value simple directive.
 */
module DirectiveTypes {

  import opened Wrappers
  import opened Tree
  import opened Utils
  import opened Errors

  datatype DirectiveType = Nullary | Simple | BlockWithoutParam | BlockWithParam

  /** `DirectiveTypeResolver`: the caller may supply its own. */
  type Resolver = (seq<string>, Value) -> Result<DirectiveType, Error>

  /** `BUILTIN_BLOCKS_WITHOUT_PARAM`: nginx's own parameterless blocks. */
  const BuiltinBlocksWithoutParam: set<string> := {
    "main/events",
    "main/http",
    "main/http/server",
    "main/mail",
    "main/mail/server",
    "main/stream",
    "main/stream/server"
  }

  /** The marker a directive name may carry to force a parameterless block. */
  const ParameterlessMarker := "{}"

  /** `isBlockWithoutParam(path, value)`: the path is in the set, or the
      directive name ends with `{}` and the value is a plain object. */
  predicate IsBlockWithoutParam(blocks: set<string>, path: seq<string>, v: Value) {
    Join(path, "/") in blocks
    || (|path| > 0 && EndsWith(path[|path| - 1], ParameterlessMarker) && v.Obj?)
  }

  predicate AllBlocksWithoutParam(blocks: set<string>, path: seq<string>, items: seq<Value>) {
    forall i :: 0 <= i < |items| ==> IsBlockWithoutParam(blocks, path, items[i])
  }

  predicate AllScalar(items: seq<Value>) {
    forall i :: 0 <= i < |items| ==> IsScalar(items[i])
  }

  predicate AllObjectValues(fields: Context) {
    forall i :: 0 <= i < |fields| ==> fields[i].value.Obj?
  }

  predicate AllScalarValues(fields: Context) {
    forall i :: 0 <= i < |fields| ==> IsScalar(fields[i].value)
  }

  /** The error raised for a value of no recognised shape. */
  function InvalidValue(path: seq<string>, v: Value): Error {
    InputError("Invalid value in " + Join(path, "/"), v)
  }

  /** The resolver built by `createDirectiveTypeResolver(blocks)`. Its
      verdict guarantees the shape each engine relies on, and it fails
      exactly on mixed arrays and on objects that hold neither only objects
      nor only scalars. */
  function Classify(blocks: set<string>, path: seq<string>, v: Value): (r: Result<DirectiveType, Error>)
    ensures r == Ok(Nullary) <==> v.Null?
    ensures r == Ok(BlockWithParam) ==>
              v.Obj? && AllObjectValues(v.fields) && !IsBlockWithoutParam(blocks, path, v)
    ensures r == Ok(BlockWithoutParam) ==>
              (v.Obj? && IsBlockWithoutParam(blocks, path, v))
              || (v.Arr? && AllBlocksWithoutParam(blocks, path, v.items))
    ensures r == Ok(Simple) ==>
              IsScalar(v) || (v.Arr? && AllScalar(v.items)) || (v.Obj? && AllScalarValues(v.fields))
    ensures r.Err? <==>
              (v.Arr? && !AllBlocksWithoutParam(blocks, path, v.items) && !AllScalar(v.items))
              || (v.Obj? && !IsBlockWithoutParam(blocks, path, v)
                  && !AllObjectValues(v.fields) && !AllScalarValues(v.fields))
    ensures r.Err? ==> r.error == InvalidValue(path, v)
    ensures IsScalar(v) ==> r == Ok(Simple)
  {
    if v.Null? then Ok(Nullary)
    else if v.Arr? && AllBlocksWithoutParam(blocks, path, v.items) then Ok(BlockWithoutParam)
    else if v.Arr? && AllScalar(v.items) then Ok(Simple)
    else if v.Obj? && IsBlockWithoutParam(blocks, path, v) then Ok(BlockWithoutParam)
    else if v.Obj? && AllObjectValues(v.fields) then Ok(BlockWithParam)
    else if v.Obj? && AllScalarValues(v.fields) then Ok(Simple)
    else if IsScalar(v) then Ok(Simple)
    else Err(InvalidValue(path, v))
  }

  /** `createDirectiveTypeResolver(blocks)` */
  function CreateResolver(blocks: set<string>): Resolver {
    (path: seq<string>, v: Value) => Classify(blocks, path, v)
  }

  /** The resolver every engine uses unless the caller supplies one. */
  function DefaultResolver(): Resolver {
    CreateResolver(BuiltinBlocksWithoutParam)
  }

  // ---------------------------------------------------------------------
  // Properties of the classifier
  // ---------------------------------------------------------------------

  /** `null` wins over everything, even a path in the set or a `{}` name. */
  lemma NullIsNullary(blocks: set<string>, path: seq<string>)
    ensures Classify(blocks, path, Null) == Ok(Nullary)
  {
  }

  /** An empty array is a parameterless block (vacuous `every`), not a
      simple directive; any array at a path in the set is one too. */
  lemma ArraysAtParameterlessPaths(blocks: set<string>, path: seq<string>, items: seq<Value>)
    ensures Classify(blocks, path, Arr([])) == Ok(BlockWithoutParam)
    ensures Join(path, "/") in blocks ==> Classify(blocks, path, Arr(items)) == Ok(BlockWithoutParam)
  {
  }

  /** The parameterless test comes first for objects: at a path in the set
      or under a `{}` name, an object is one block, whatever it holds. */
  lemma ParameterlessTestFirst(blocks: set<string>, path: seq<string>, fields: Context)
    requires |path| > 0
    requires Join(path, "/") in blocks || EndsWith(path[|path| - 1], ParameterlessMarker)
    ensures Classify(blocks, path, Obj(fields)) == Ok(BlockWithoutParam)
  {
  }

  /** `{}` elsewhere is a family of zero parameterised blocks. */
  lemma EmptyObjectIsBlockWithParam(blocks: set<string>, path: seq<string>)
    requires !IsBlockWithoutParam(blocks, path, Obj([]))
    ensures Classify(blocks, path, Obj([])) == Ok(BlockWithParam)
  {
  }

  /** Growing the set of parameterless paths never turns a parameterless
      block into anything else. */
  lemma {:induction false} ParameterlessMonotone(blocks: set<string>, more: set<string>, path: seq<string>, v: Value)
    requires blocks <= more
    requires Classify(blocks, path, v) == Ok(BlockWithoutParam)
    ensures Classify(more, path, v) == Ok(BlockWithoutParam)
  {
    if v.Arr? {
      assert AllBlocksWithoutParam(more, path, v.items) by {
        forall i | 0 <= i < |v.items|
          ensures IsBlockWithoutParam(more, path, v.items[i])
        {
          assert IsBlockWithoutParam(blocks, path, v.items[i]);
        }
      }
    }
  }

  /** The root contexts named `http`, `mail` and `stream`, and the `server`
      blocks below them, are parameterless under the built-in set. */
  lemma BuiltinRootsAreParameterless()
    ensures Join(["main", "http"], "/") in BuiltinBlocksWithoutParam
    ensures Join(["main", "mail"], "/") in BuiltinBlocksWithoutParam
    ensures Join(["main", "stream"], "/") in BuiltinBlocksWithoutParam
    ensures Join(["main", "http", "server"], "/") in BuiltinBlocksWithoutParam
    ensures Join(["main", "unknown", "server"], "/") !in BuiltinBlocksWithoutParam
  {
    assert Join(["main", "http"], "/") == "main/http";
    assert Join(["main", "mail"], "/") == "main/mail";
    assert Join(["main", "stream"], "/") == "main/stream";
    assert Join(["main", "http", "server"], "/") == "main/http/server";
    assert Join(["main", "unknown", "server"], "/") == "main/unknown/server";
  }
}
