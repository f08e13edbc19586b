/**
 * `API.Object`: a total, read-only accessor over one JSON value. Every reader
 * returns the field's value when it is there with the expected type, and the
 * caller's default (or absence) otherwise; no reader fails.
 */
module Accessor {
  import opened Wrappers
  import Json

  /** The accessor wraps one JSON value that is never replaced after construction. */
  datatype ApiObject = ApiObject(json: Json.Value) {

    /** `self[identifier]`: the same nested accessor as `object(identifier)`. */
    function Subscript(id: string): (r: ApiObject)
      ensures r == Object(id)
    {
      Object(id)
    }

    /** The field `id` is present and holds an integer. */
    predicate IntField(id: string)
    {
      Json.HasField(json, id) && json.fields[id].Int?
    }

    predicate StringField(id: string)
    {
      Json.HasField(json, id) && json.fields[id].Str?
    }

    predicate BoolField(id: string)
    {
      Json.HasField(json, id) && json.fields[id].Bool?
    }

    predicate ObjectField(id: string)
    {
      Json.HasField(json, id) && json.fields[id].Obj?
    }

    predicate ArrayField(id: string)
    {
      Json.HasField(json, id) && json.fields[id].Arr?
    }

    /** `int(identifier, defaultInt = 0)` */
    function Int(id: string, defaultInt: int := 0): (r: int)
      ensures IntField(id) ==> r == json.fields[id].i
      ensures !IntField(id) ==> r == defaultInt
    {
      match Json.AsInt(Json.Field(json, id))
      case Some(n) => n
      case None => defaultInt
    }

    /** `nullableInt(identifier)` */
    function NullableInt(id: string): (r: Option<int>)
      ensures r.Some? <==> IntField(id)
      ensures r.Some? ==> r.value == json.fields[id].i
    {
      Json.AsInt(Json.Field(json, id))
    }

    /** `string(identifier, defaultString = "")` */
    function String(id: string, defaultString: string := ""): (r: string)
      ensures StringField(id) ==> r == json.fields[id].s
      ensures !StringField(id) ==> r == defaultString
    {
      match Json.AsString(Json.Field(json, id))
      case Some(t) => t
      case None => defaultString
    }

    /** `nullableString(identifier)` */
    function NullableString(id: string): (r: Option<string>)
      ensures r.Some? <==> StringField(id)
      ensures r.Some? ==> r.value == json.fields[id].s
    {
      Json.AsString(Json.Field(json, id))
    }

    /** `nullableNotEmptyString(identifier)`: an empty string reads as absent. */
    function NullableNotEmptyString(id: string): (r: Option<string>)
      ensures r.None? <==> NullableString(id).None? || NullableString(id) == Some("")
      ensures r.Some? ==> r == NullableString(id) && r.value != ""
    {
      if NullableString(id) == Some("") then None else NullableString(id)
    }

    /** `bool(identifier, defaultBool = false)` */
    function Bool(id: string, defaultBool: bool := false): (r: bool)
      ensures BoolField(id) ==> r == json.fields[id].b
      ensures !BoolField(id) ==> r == defaultBool
    {
      match Json.AsBool(Json.Field(json, id))
      case Some(v) => v
      case None => defaultBool
    }

    /** `nullableBool(identifier)` */
    function NullableBool(id: string): (r: Option<bool>)
      ensures r.Some? <==> BoolField(id)
      ensures r.Some? ==> r.value == json.fields[id].b
    {
      Json.AsBool(Json.Field(json, id))
    }

    /** `object(identifier)`: always an accessor, over the error value when the
        field is missing. */
    function Object(id: string): (r: ApiObject)
      ensures Json.HasField(json, id) ==> r.json == json.fields[id]
      ensures !Json.HasField(json, id) ==> r.json == Json.Invalid
    {
      ApiObject(Json.Field(json, id))
    }

    /** `nullableObject(identifier)`: present exactly when the field is a dictionary. */
    function NullableObject(id: string): (r: Option<ApiObject>)
      ensures r.Some? <==> ObjectField(id)
      ensures r.Some? ==> r.value == Object(id) && r.value.json.Obj?
    {
      if Json.IsDictionary(Json.Field(json, id)) then Some(ApiObject(Json.Field(json, id))) else None
    }

    /** `array(identifier)`: one accessor per element, in source order, or `[]`. */
    function Array(id: string): (r: seq<ApiObject>)
      ensures !ArrayField(id) ==> r == []
      ensures ArrayField(id) ==> |r| == |json.fields[id].elems|
      ensures ArrayField(id) ==> forall k :: 0 <= k < |r| ==> r[k].json == json.fields[id].elems[k]
    {
      match Json.AsArray(Json.Field(json, id))
      case Some(xs) => WrapAll(xs)
      case None => []
    }
  }

  /** `array.map({ json in API.Object(json: json) })` */
  function WrapAll(xs: seq<Json.Value>): (r: seq<ApiObject>)
    ensures |r| == |xs|
    ensures forall k :: 0 <= k < |xs| ==> r[k] == ApiObject(xs[k])
  {
    if xs == [] then [] else [ApiObject(xs[0])] + WrapAll(xs[1..])
  }

  /** Each defaulting reader is its nullable reader with the default filled in,
      so the nullable readers are absent exactly where the defaulting ones fall back. */
  lemma DefaultingIsNullableOr(o: ApiObject, id: string, n: int, t: string, v: bool)
    ensures o.Int(id, n) == o.NullableInt(id).GetOr(n)
    ensures o.String(id, t) == o.NullableString(id).GetOr(t)
    ensures o.Bool(id, v) == o.NullableBool(id).GetOr(v)
    ensures o.NullableInt(id).None? <==> o.Int(id, n) == n && o.Int(id, n + 1) == n + 1
  {
  }

  /** An accessor over anything but an object reads every field as its default. */
  lemma NonObjectReadsDefaults(o: ApiObject, id: string, n: int, t: string, v: bool)
    requires !o.json.Obj?
    ensures o.Int(id, n) == n && o.NullableInt(id) == None
    ensures o.String(id, t) == t && o.NullableString(id) == None && o.NullableNotEmptyString(id) == None
    ensures o.Bool(id, v) == v && o.NullableBool(id) == None
    ensures o.Object(id).json == Json.Invalid && o.NullableObject(id) == None
    ensures o.Array(id) == []
  {
  }

  /** `object(f)` never fails: on a missing or non-object field, every reader on
      the nested accessor returns its own default. */
  lemma MissingObjectReadsDefaults(o: ApiObject, f: string, id: string, n: int, t: string, v: bool)
    requires !o.ObjectField(f)
    ensures o.Subscript(f).String(id, t) == t && o.Object(f).Int(id, n) == n && o.Object(f).Bool(id, v) == v
    ensures o.Object(f).NullableObject(id) == None && o.Object(f).Array(id) == []
  {
    NonObjectReadsDefaults(o.Object(f), id, n, t, v);
  }
}
