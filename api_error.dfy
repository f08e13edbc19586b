/**
 * `API.Error`: one failure, as a message and an optional numeric code. Four
 * constructors converge on this shape; `OnErrorMessage` is the text the
 * default error handler shows.
 */
module ApiErrors {
  import opened Wrappers
  import Json
  import Decimal

  datatype ApiError = ApiError(details: string, statusCode: Option<int>)

  /** What the transport library reports when an exchange does not complete. */
  datatype TransportError = TransportError(code: int, localizedDescription: string)

  const UnknownErrorText: string := "Unexpected unknown error"

  /** The body fields consulted for a message, most preferred first. */
  const MessageFields: seq<string> := ["fallback", "error", "detail", "status"]

  /** `Error()` */
  function Unknown(): (e: ApiError)
    ensures e.details == UnknownErrorText && e.statusCode.None?
  {
    ApiError(UnknownErrorText, None)
  }

  /** `Error(error:)`: the transport failure's description and code. */
  function FromTransport(t: TransportError): (e: ApiError)
    ensures e.details == t.localizedDescription && e.statusCode == Some(t.code)
  {
    ApiError(t.localizedDescription, Some(t.code))
  }

  /** `Error(details:)` */
  function FromDetails(details: string): (e: ApiError)
    ensures e.details == details && e.statusCode.None?
  {
    ApiError(details, None)
  }

  /** `json[key].asString` */
  function StringAt(j: Json.Value, key: string): (r: Option<string>)
    ensures r.Some? <==> Json.HasField(j, key) && j.fields[key].Str?
    ensures r.Some? ==> r.value == j.fields[key].s
  {
    Json.AsString(Json.Field(j, key))
  }

  /** `Error(json:)`. `dump` is the library's pretty rendering of the body,
      which this model leaves uninterpreted. */
  function FromJson(j: Json.Value, dump: Json.Value -> string): (e: ApiError)
    ensures e.statusCode.None?
    ensures !j.Obj? ==> e.details == if j == Json.Null then UnknownErrorText else dump(j)
  {
    if StringAt(j, "fallback").Some? then ApiError(StringAt(j, "fallback").value, None)
    else if StringAt(j, "error").Some? then ApiError(StringAt(j, "error").value, None)
    else if StringAt(j, "detail").Some? then ApiError(StringAt(j, "detail").value, None)
    else if StringAt(j, "status").Some? then ApiError(StringAt(j, "status").value, None)
    else if j == Json.Null then ApiError(UnknownErrorText, None)
    else ApiError(dump(j), None)
  }

  /** Reference definition of the preference order: the position in `keys` of
      the first key whose field is a string, or `|keys|` when there is none. */
  function FirstStringKey(j: Json.Value, keys: seq<string>): (i: nat)
    ensures i <= |keys|
    ensures forall k :: 0 <= k < i ==> StringAt(j, keys[k]).None?
    ensures i < |keys| ==> StringAt(j, keys[i]).Some?
  {
    if keys == [] then 0
    else if StringAt(j, keys[0]).Some? then 0
    else 1 + FirstStringKey(j, keys[1..])
  }

  /** `Error(json:)` takes its message from the first string-valued field among
      `fallback`, `error`, `detail`, `status`; with none, the fixed text for a
      null body, and the pretty dump of any other body. */
  lemma FromJsonFollowsPreference(j: Json.Value, dump: Json.Value -> string)
    ensures var i := FirstStringKey(j, MessageFields);
            FromJson(j, dump).details ==
              if i < |MessageFields| then StringAt(j, MessageFields[i]).value
              else if j == Json.Null then UnknownErrorText
              else dump(j)
  {
    var keys := MessageFields;
    assert keys[1..] == ["error", "detail", "status"];
    assert keys[1..][1..] == ["detail", "status"];
    assert keys[1..][1..][1..] == ["status"];
    assert keys[1..][1..][1..][1..] == [];
    var i3 := FirstStringKey(j, keys[1..][1..][1..]);
    var i2 := FirstStringKey(j, keys[1..][1..]);
    var i1 := FirstStringKey(j, keys[1..]);
    assert i3 == if StringAt(j, "status").Some? then 0 else 1;
    assert i2 == if StringAt(j, "detail").Some? then 0 else 1 + i3;
    assert i1 == if StringAt(j, "error").Some? then 0 else 1 + i2;
  }

  /** A field outranks every field after it: once `fallback` is a string, the
      other three fields do not matter. */
  lemma FallbackWins(j: Json.Value, other: map<string, Json.Value>, dump: Json.Value -> string)
    requires StringAt(j, "fallback").Some?
    requires "fallback" !in other
    ensures FromJson(Json.Obj(j.fields + other), dump).details == StringAt(j, "fallback").value
  {
  }

  /** The text `onError` builds: `details` followed directly by the decimal
      status code when there is one. */
  function OnErrorMessage(e: ApiError): (m: string)
    ensures e.statusCode.None? ==> m == e.details
    ensures e.statusCode.Some? ==> |m| > |e.details| && m[..|e.details|] == e.details
    ensures e.statusCode.Some? ==> m[|e.details|..] == Decimal.IntToDecimal(e.statusCode.value)
  {
    match e.statusCode
    case None => e.details
    case Some(code) => e.details + Decimal.IntToDecimal(code)
  }

  /** Nothing separates the message from the code, and the code can be read
      back from what follows the message. */
  lemma OnErrorMessageCarriesCode(e: ApiError)
    requires e.statusCode.Some?
    ensures var m := OnErrorMessage(e);
            Decimal.ParseInt(m[|e.details|..]) == e.statusCode
            && (m[|e.details|] == '-' || Decimal.IsDigit(m[|e.details|]))
  {
    var m := OnErrorMessage(e);
    assert m[|e.details|..] == Decimal.IntToDecimal(e.statusCode.value);
    Decimal.IntDecimalRoundTrip(e.statusCode.value);
  }
}
