/** The JavaScript values the server handles, and the few JavaScript
    operators on them whose behaviour the handlers depend on. */
module Js {
  import opened Wrappers

  /** A value produced by JSON.parse. Arrays arrive as objects keyed "0", "1",
      ... (lodash's mapValues turns them into objects anyway). */
  datatype Json =
    | Null
    | Bool(b: bool)
    | Num(n: real)
    | Str(s: string)
    | Obj(fields: map<string, Json>)

  /** A value handed to a constructor or setter that may also be a function:
      `Undefined`, a JSON value, a JavaScript function (named by an index the
      environment resolves), or a testable clock (named by its index). */
  datatype JsArg =
    | Undefined
    | Val(v: Json)
    | Function(f: nat)
    | ClockRef(c: nat)

  /** The failure of a property read on `undefined`/`null`, or of calling a
      method the value does not have. */
  datatype TypeError = TypeError

  /** JavaScript truthiness of a present value (NaN is not representable). */
  predicate Truthy(v: Json)
  {
    match v
    case Null => false
    case Bool(b) => b
    case Num(n) => n != 0.0
    case Str(s) => s != ""
    case Obj(_) => true
  }

  /** Truthiness of a property read, `undefined` being falsy. */
  predicate TruthyOpt(v: Option<Json>)
  {
    v.Some? && Truthy(v.value)
  }

  predicate TruthyArg(a: JsArg)
  {
    match a
    case Undefined => false
    case Val(v) => Truthy(v)
    case Function(_) => true
    case ClockRef(_) => true
  }

  /** `typeof v` */
  function TypeOf(v: Json): string
  {
    match v
    case Null => "object"
    case Bool(_) => "boolean"
    case Num(_) => "number"
    case Str(_) => "string"
    case Obj(_) => "object"
  }

  /** `v[k]` on a value that is neither null nor undefined: the own property of
      an object; the primitives carry none of the names the server reads. */
  function Field(v: Json, k: string): (r: Option<Json>)
    ensures r.Some? <==> v.Obj? && k in v.fields
    ensures r.Some? ==> r.value == v.fields[k]
  {
    if v.Obj? && k in v.fields then Some(v.fields[k]) else None
  }

  /** `v.k` with JavaScript's failure: reading a property of `undefined` or
      `null` throws a TypeError. */
  function Prop(v: Option<Json>, k: string): (r: Result<Option<Json>, TypeError>)
    ensures r.Err? <==> v.None? || v == Some(Null)
    ensures r.Ok? ==> r.value == Field(v.value, k)
  {
    match v
    case None => Err(TypeError)
    case Some(Null) => Err(TypeError)
    case Some(x) => Ok(Field(x, k))
  }

  /** lodash's `_.get(v, path)`: follows own properties and yields
      `undefined` instead of throwing. */
  function GetPath(v: Option<Json>, path: seq<string>): (r: Option<Json>)
    ensures path == [] ==> r == v
    ensures v.None? ==> r.None?
    decreases |path|
  {
    if path == [] then v
    else if v.None? then None
    else GetPath(Field(v.value, path[0]), path[1..])
  }

  /** `_.get` along two and three keys, one property at a time. */
  lemma GetPathTwo(v: Option<Json>, a: string, b: string)
    ensures GetPath(v, [a, b]) == if v.None? || Field(v.value, a).None? then None else Field(Field(v.value, a).value, b)
  {
    assert [a, b][1..] == [b] && [b][1..] == [];
  }

  lemma GetPathThree(v: Option<Json>, a: string, b: string, c: string)
    ensures GetPath(v, [a, b, c]) == if v.None? then None else GetPath(Field(v.value, a), [b, c])
  {
    assert [a, b, c][1..] == [b, c];
  }

  /** `a === b` on values read from a freshly parsed message: primitives
      compare by value, and a parsed object is never the same object as any
      other value. */
  predicate StrictEquals(a: Option<Json>, b: Option<Json>)
  {
    match (a, b)
    case (None, None) => true
    case (Some(x), Some(y)) => !x.Obj? && x == y
    case _ => false
  }

  predicate EndsWith(s: string, suffix: string)
  {
    |suffix| <= |s| && s[|s| - |suffix|..] == suffix
  }

  /** The object with exactly the given one key. */
  function Single(k: string, v: Json): Json
  {
    Obj(map[k := v])
  }

  /** The string form `String(b)` of a boolean. */
  function BoolString(b: bool): string
  {
    if b then "true" else "false"
  }
}
