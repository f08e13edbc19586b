/**
 * The parsed JSON values the client works on, and the projections of the JSON
 * library it calls: `json[key]`, `asInt`, `asString`, `asBool`, `asArray` and
 * `isDictionary`. Only plain type matching is modelled: no reader coerces a
 * number to a boolean or a string to a number.
 */
module Json {
  import opened Wrappers

  /** A JSON value. `Invalid` is the library's error value: what a lookup of a
      missing key, or of any key in something that is not an object, yields. */
  datatype Value =
    | Null
    | Bool(b: bool)
    | Int(i: int)
    | Str(s: string)
    | Arr(elems: seq<Value>)
    | Obj(fields: map<string, Value>)
    | Invalid

  /** `key` is a field of the object `j`. */
  predicate HasField(j: Value, key: string)
  {
    j.Obj? && key in j.fields
  }

  /** `json[key]`: the field's value, or the error value; never fails. */
  function Field(j: Value, key: string): (r: Value)
    ensures HasField(j, key) ==> r == j.fields[key]
    ensures !HasField(j, key) ==> r == Invalid
  {
    if j.Obj? && key in j.fields then j.fields[key] else Invalid
  }

  /** `asInt` */
  function AsInt(j: Value): (r: Option<int>)
    ensures r.Some? <==> j.Int?
    ensures r.Some? ==> r.value == j.i
  {
    match j
    case Int(n) => Some(n)
    case _ => None
  }

  /** `asString` */
  function AsString(j: Value): (r: Option<string>)
    ensures r.Some? <==> j.Str?
    ensures r.Some? ==> r.value == j.s
  {
    match j
    case Str(t) => Some(t)
    case _ => None
  }

  /** `asBool` */
  function AsBool(j: Value): (r: Option<bool>)
    ensures r.Some? <==> j.Bool?
    ensures r.Some? ==> r.value == j.b
  {
    match j
    case Bool(v) => Some(v)
    case _ => None
  }

  /** `asArray` */
  function AsArray(j: Value): (r: Option<seq<Value>>)
    ensures r.Some? <==> j.Arr?
    ensures r.Some? ==> r.value == j.elems
  {
    match j
    case Arr(xs) => Some(xs)
    case _ => None
  }

  /** `isDictionary` */
  predicate IsDictionary(j: Value)
  {
    j.Obj?
  }
}
