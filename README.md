# API.swift core, modelled in Dafny

`API.swift` is a small HTTP+JSON client facade. It issues a GET request and wraps the JSON answer in `API.Object`, a read-only accessor that never fails. It turns every failure into one `API.Error` shape, and it dispatches the outcome to a success callback, an error callback or a default report. A connectivity failure also offers a retry when a view controller is available.

This project models that core as pure Dafny:

- `json.dfy` (module `Json`): JSON values and the projections of the JSON library the code calls. These are `json[key]`, `asInt`, `asString`, `asBool`, `asArray` and `isDictionary`. Each matches on the value's type and does not coerce.
- `accessor.dfy` (module `Accessor`): `API.Object` as the datatype `ApiObject`. Its readers are member functions, each contracted against the wrapped JSON value.
- `api_error.dfy` (module `ApiErrors`): the four `API.Error` initialisers and the message that `onError` builds. The message preference order is stated against the reference search `FirstStringKey`.
- `decimal.dfy` (module `Decimal`): Swift's `String(Int)`, which `onError` uses for the status code, together with `ParseInt`, which reads the rendering back.
- `dispatch.dfy` (module `Dispatch`): `go`, `cbErrorWrapper`, `onNotConnected` and `onError`. The request that `go` issues is `Issue`. One completion of the transport is an input value, and its consequences are a list of `Effect`s (`Complete`).
- `scenarios.dfy` (module `Scenarios`): worked cases of all of the above.

The source holds no loops and changes no state in place. `API.Object` keeps one `json` field that is never reassigned after `init`, and `API.Error`'s fields are set once in its initialisers. So every entity is a datatype and every operation a function.

Behaviour that the code fixes and the model keeps:

- An error built from a response body never has a `statusCode` (API.swift:125-139). An HTTP status is therefore never rendered into the message, and an HTTP error never triggers the not-connected handling. Only transport errors carry a code.
- `details` can be empty: an empty `fallback`, `error`, `detail` or `status` string, or an empty `Error(details:)`, is taken as it is.
- The request target is the static `API.url` plus `endpoint` (API.swift:157). The `url` argument of `go` only travels into the retry closure.
- `onError` builds an alert when a view controller is present but never presents it. Without a view controller it logs the message. The model keeps the message and whether it was logged.
- When a response is present, a transport error delivered beside it is ignored.
- An absent body is read as the JSON null value.

## Model

| member | source | states |
|---|---|---|
| Accessor.ApiObject.Subscript | API.swift:23-27 | `self[f]` is the same accessor as `object(f)` |
| Accessor.ApiObject.Int | API.swift:29-34 | the field's integer when the field exists and holds an integer, otherwise the caller's default (0 when omitted) |
| Accessor.ApiObject.NullableInt | API.swift:35-37 | present exactly when the field holds an integer, and then that integer |
| Accessor.ApiObject.String | API.swift:39-44 | the field's string when it holds one, otherwise the default ("" when omitted) |
| Accessor.ApiObject.NullableString | API.swift:45-47 | present exactly when the field holds a string, and then that string |
| Accessor.ApiObject.NullableNotEmptyString | API.swift:48-50 | absent exactly when `nullableString` is absent or `""`; otherwise equal to it, and never empty |
| Accessor.ApiObject.Bool | API.swift:52-57 | the field's boolean when it holds one, otherwise the default (false when omitted) |
| Accessor.ApiObject.NullableBool | API.swift:58-60 | present exactly when the field holds a boolean, and then that boolean |
| Accessor.ApiObject.Object | API.swift:62-64 | always an accessor: over the field's value when present, over the library's error value when missing |
| Accessor.ApiObject.NullableObject | API.swift:65-70 | present exactly when the field is a dictionary, and then the same accessor `object(f)` gives |
| Accessor.ApiObject.Array | API.swift:72-77 | `[]` unless the field is an array; otherwise one accessor per element, same length, the i-th wrapping the i-th element |
| Accessor.WrapAll | API.swift:74 | the `map` keeps length and order: element i of the result wraps element i of the input |
| Accessor.DefaultingIsNullableOr | API.swift:29-60 | each defaulting reader equals its nullable reader with the default filled in, so the nullable reader is absent exactly where the defaulting one falls back |
| Accessor.NonObjectReadsDefaults | API.swift:29-77 | on a value that is not an object, every reader returns its own default or absence |
| Accessor.MissingObjectReadsDefaults | API.swift:23-27 | `object(f)` and `self[f]` of a missing or non-object field read every field as its default |
| ApiErrors.Unknown | API.swift:115-117 | `Error()` has the fixed unknown-error text and no status code |
| ApiErrors.FromTransport | API.swift:118-121 | `Error(error:)` takes the description as `details` and the code as `statusCode` |
| ApiErrors.FromDetails | API.swift:122-124 | `Error(details:)` keeps the given text and has no status code |
| ApiErrors.StringAt | API.swift:126 | `json[key].asString` is present exactly when the body is an object whose field `key` is a string |
| ApiErrors.FromJson | API.swift:125-139 | `Error(json:)` never has a status code; a body that is not an object gives the unknown-error text when null and the pretty dump otherwise |
| ApiErrors.FirstStringKey | API.swift:126-133 | reference definition of the preference order: the position of the first key whose field is a string, none before it being one |
| ApiErrors.FromJsonFollowsPreference | API.swift:125-139 | `details` is the first string field among fallback, error, detail, status; with none, the unknown-error text for a null body and the pretty dump otherwise |
| ApiErrors.FallbackWins | API.swift:126-127 | a string `fallback` decides the message whatever other fields the body has |
| ApiErrors.OnErrorMessage | API.swift:100-104 | the message is exactly `details` without a status code, and otherwise `details` followed by the canonical decimal `String` of the code |
| ApiErrors.OnErrorMessageCarriesCode | API.swift:101-104 | the status code follows `details` with no separator and reads back from the rest of the message |
| Decimal.NatToDecimal | API.swift:103 | decimal digits only, non-empty, a leading zero only for 0 |
| Decimal.IntToDecimal | API.swift:103 | `String(Int)`: a `-` exactly for negative values, then decimal digits with no leading zero (a leading `0` exactly for zero) |
| Decimal.NatDecimalRoundTrip | API.swift:103 | the digits of a natural number read back as that number |
| Decimal.IntDecimalRoundTrip | API.swift:103 | the decimal text of any integer parses back to it |
| Dispatch.Issue | API.swift:157 | the GET goes to the static base url plus `endpoint`, with the request's parameters |
| Dispatch.TargetIgnoresUrlArgument | API.swift:142-157 | `go`'s `url` argument does not change the request issued; the static base url does |
| Dispatch.IsSuccessStatus | API.swift:161 | the status is in [200,300), that is, its hundreds class is 2 |
| Dispatch.IsNotConnected | API.swift:145 | membership of the code in the platform's not-connected list, as `contains` tests it: some position of the list holds the code |
| Dispatch.BodyJson | API.swift:160 | an absent body is the null value, a present one is kept |
| Dispatch.Classify | API.swift:159-177 | success exactly for a response with status in [200,300); otherwise the error from the body, from the transport error, or the unknown error |
| Dispatch.OnNotConnected | API.swift:87-98 | one effect: a retry prompt carrying the identical request when a view controller is present, a not-connected log line otherwise |
| Dispatch.OnError | API.swift:100-110 | the default report carries the `onError` message and is logged exactly when there is no view controller |
| Dispatch.ErrorWrapper | API.swift:143-155 | one or two effects: the not-connected handling first exactly for a listed status code, then always the one report, via `cbError` when given and `onError` otherwise |
| Dispatch.Complete | API.swift:158-177 | one completion yields the success call over the body for a 2xx response, and otherwise exactly the error wrapper's effects for the error `Classify` built |
| Dispatch.SuccessCallsOnlySuccess | API.swift:161-165 | a 2xx response calls `cbSuccess` once with an accessor over the body and reports nothing |
| Dispatch.ErrorReportedExactlyOnce | API.swift:150-176 | every other completion never calls `cbSuccess` and reports exactly once, last, the error built from the body, the transport error or the unknown error: to `cbError` exactly when one was given, else as the `onError` message |
| Dispatch.NotConnectedOnlyForListedTransportCodes | API.swift:143-148 | the not-connected handling happens once exactly for a transport error with a listed code, as a retry prompt exactly when a view controller is present |
| Dispatch.RetryReissuesSameRequest | API.swift:90-92 | a retry prompt carries the identical request, so Retry issues the same GET again |
| Scenarios.ArrayKeepsOrder | API.swift:72-77 | `{"a":[{"v":1},{"v":2}]}`: element 0 reads `v` as 1 and element 1 as 2 |
| Scenarios.MissingAndEmptyFields | API.swift:29-64 | a missing nested object reads the default; an empty string is absent for `nullableNotEmptyString` only |
| Scenarios.MessagePreferenceExamples | API.swift:125-139 | worked cases of the preference order, the null body and the pretty dump |
| Scenarios.EmptyDetailsPossible | API.swift:126-127 | an empty `fallback` string gives empty `details` |
| Scenarios.StatusCodeAppendedWithoutSeparator | API.swift:100-104 | `"offline"` with code -1009 renders as `"offline-1009"` |
| Scenarios.ItemsScenario | API.swift:159-165 | status 200 with `{"items":[{"id":7}]}` gives one success whose accessor reads 7 |
| Scenarios.ServerDownScenario | API.swift:167-169 | status 500 with `{"detail":"server down"}` reaches `cbError` with that message, or the logged default report |
| Scenarios.ConnectivityScenario | API.swift:143-155 | a listed transport error with a view controller gives the retry prompt and still the error report |

## Left out

- The Alamofire transport and its asynchronous `responseJSON` callback. One completion is an input value (`Completion`).
- UIKit alert construction and presentation. The retry prompt and the report are effects. The callbacks are represented only by whether an error callback and a view controller were supplied.
- `vprint`, `println` and the `verbose` level. The log lines "API Success", "API Error", "API Unknown Error", "Not connected error code" and the level-3 response dumps are logging on global state and are not modelled. The "Error: not connected." and "Error: " + message lines are kept as the `LogNotConnected` effect and the `logged` flag.
- JSON parsing and the text of `toString(pretty:)`. The pretty dump is the uninterpreted parameter `Env.dump`, and the `toString(pretty: false) == "null"` test is read as "the body is the null value".
- JSON floating-point numbers and the library's numeric and boolean coercions. Numbers are integers, and every reader matches on type only.
- The numeric values of the fourteen `NSURLError*` constants. The list is the platform parameter `Env.notConnectedErrors`, which may be any list of codes (every lemma holds for any list), and membership is tested as `contains` does.
- Repeated retries through the alert action. `RetryReissuesSameRequest` shows that one retry re-issues `go` with identical arguments, so `Issue` sends the same GET; repeated user interaction is not modelled.
- Swift's 64-bit `Int` bounds. Integers are unbounded, which changes nothing here because no arithmetic is done on them.
