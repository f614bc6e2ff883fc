/** The configuration tree (the `NgxValue`, `NgxContext` and block shapes).

    Input comes from a JSON or YAML parser, so a directive value can have any
    JSON shape; the classifier decides which shapes are meaningful. A context
    (a block body, `NgxContext`) is an ordered sequence of key/value pairs;
    its order is the output order. Numbers are modelled as integers.
 */
module Tree {

  import opened Wrappers

  datatype Value =
    | Null
    | Str(s: string)
    | Num(n: int)
    | Bool(b: bool)
    | Arr(items: seq<Value>)
    | Obj(fields: seq<Field>)

  datatype Field = Field(key: string, value: Value)

  /** A block body: directive name to value, in insertion order. */
  type Context = seq<Field>

  /** Termination measures for the recursive walks over a tree. A field
      weighs one more than its value, so that a single-field object is
      strictly heavier than the value it holds. */
  function Size(v: Value): nat {
    match v
    case Arr(items) => 1 + ItemsSize(items)
    case Obj(fields) => 1 + FieldsSize(fields)
    case _ => 1
  }

  function ItemsSize(vs: seq<Value>): nat {
    if |vs| == 0 then 0 else Size(vs[0]) + ItemsSize(vs[1..])
  }

  function FieldsSize(fs: seq<Field>): nat {
    if |fs| == 0 then 0 else 1 + Size(fs[0].value) + FieldsSize(fs[1..])
  }

  /** `isSimple`: a string, number or boolean (bigints are numbers here). */
  predicate IsScalar(v: Value) {
    v.Str? || v.Num? || v.Bool?
  }

  /** JavaScript falsiness of a value (`!value`). Objects and arrays are
      always truthy. */
  predicate Falsy(v: Value) {
    v.Null? || v == Bool(false) || v == Num(0) || v == Str("")
  }

  function Keys(fs: Context): (ks: seq<string>)
    ensures |ks| == |fs|
    ensures forall i :: 0 <= i < |fs| ==> ks[i] == fs[i].key
  {
    if |fs| == 0 then [] else [fs[0].key] + Keys(fs[1..])
  }

  /** Object keys are unique, as in any JavaScript object. */
  predicate UniqueKeys(fs: Context) {
    forall i, j :: 0 <= i < j < |fs| ==> fs[i].key != fs[j].key
  }

  /** `key in obj` */
  predicate Has(fs: Context, key: string) {
    key in Keys(fs)
  }

  /** `obj[key]`; `None` stands for `undefined`. */
  function Get(fs: Context, key: string): (r: Option<Value>)
    ensures r.Some? <==> Has(fs, key)
  {
    if |fs| == 0 then None
    else if fs[0].key == key then Some(fs[0].value)
    else
      assert Keys(fs) == [fs[0].key] + Keys(fs[1..]);
      Get(fs[1..], key)
  }

  /** Property assignment `obj[key] = value`: an existing key keeps its
      position, a new key is appended, every other key keeps its value. */
  function Put(fs: Context, key: string, v: Value): (r: Context)
    ensures Keys(r) == if Has(fs, key) then Keys(fs) else Keys(fs) + [key]
    ensures Get(r, key) == Some(v)
    ensures forall k :: k != key ==> Get(r, k) == Get(fs, k)
  {
    if |fs| == 0 then [Field(key, v)]
    else if fs[0].key == key then
      assert Keys([Field(key, v)] + fs[1..]) == [key] + Keys(fs[1..]);
      assert Keys(fs) == [key] + Keys(fs[1..]);
      [Field(key, v)] + fs[1..]
    else
      var rest := Put(fs[1..], key, v);
      assert Keys(fs) == [fs[0].key] + Keys(fs[1..]);
      assert Keys([fs[0]] + rest) == [fs[0].key] + Keys(rest);
      assert ([fs[0]] + rest)[1..] == rest;
      [fs[0]] + rest
  }
}
