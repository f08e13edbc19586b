/** Worked cases of the accessor, the error constructors and one completion. */
module Scenarios {
  import opened Wrappers
  import Json
  import opened Accessor
  import opened ApiErrors
  import opened Dispatch

  /** `{"a":[{"v":1},{"v":2}]}`: `array("a")` keeps the elements in order. */
  lemma ArrayKeepsOrder()
    ensures var o := ApiObject(Json.Obj(map["a" := Json.Arr([
              Json.Obj(map["v" := Json.Int(1)]), Json.Obj(map["v" := Json.Int(2)])])]));
            |o.Array("a")| == 2 && o.Array("a")[0].Int("v") == 1 && o.Array("a")[1].Int("v") == 2
  {
  }

  /** `object("missing").string("x", "d")` is `"d"`; an empty string reads as absent. */
  lemma MissingAndEmptyFields()
    ensures var o := ApiObject(Json.Obj(map["name" := Json.Str("")]));
            && o.Object("missing").String("x", "d") == "d"
            && o.NullableString("name") == Some("")
            && o.NullableNotEmptyString("name") == None
            && o.Int("name") == 0 && o.NullableInt("name") == None
  {
  }

  lemma MessagePreferenceExamples(dump: Json.Value -> string)
    ensures FromJson(Json.Obj(map["fallback" := Json.Str("A"), "error" := Json.Str("B")]), dump).details == "A"
    ensures FromJson(Json.Obj(map["error" := Json.Str("B"), "detail" := Json.Str("C")]), dump).details == "B"
    ensures FromJson(Json.Obj(map["fallback" := Json.Int(1), "status" := Json.Str("D")]), dump).details == "D"
    ensures FromJson(Json.Obj(map[]), dump).details == dump(Json.Obj(map[]))
    ensures FromJson(Json.Null, dump).details == UnknownErrorText
  {
  }

  /** The message can be empty: an empty `fallback` string is taken as it is. */
  lemma EmptyDetailsPossible(dump: Json.Value -> string)
    ensures FromJson(Json.Obj(map["fallback" := Json.Str(""), "error" := Json.Str("B")]), dump).details == ""
  {
  }

  lemma StatusCodeAppendedWithoutSeparator()
    ensures OnErrorMessage(ApiError("offline", Some(-1009))) == "offline-1009"
    ensures OnErrorMessage(ApiError("offline", None)) == "offline"
  {
  }

  /** Status 200 with body `{"items":[{"id":7}]}`. */
  lemma ItemsScenario(env: Env, req: Request)
    ensures var body := Json.Obj(map["items" := Json.Arr([Json.Obj(map["id" := Json.Int(7)])])]);
            var effs := Complete(env, req, Completion(Some(HttpResponse(200, Some(body))), None));
            |effs| == 1 && effs[0].Success? && effs[0].obj.Array("items")[0].Int("id") == 7
  {
  }

  /** Status 500 with body `{"detail":"server down"}`: the error callback gets
      the message, or, with neither callback nor view controller, it is logged. */
  lemma ServerDownScenario(env: Env, req: Request)
    ensures var c := Completion(Some(HttpResponse(500, Some(Json.Obj(map["detail" := Json.Str("server down")])))), None);
            && Complete(env, req.(hasErrorCallback := true), c) == [ErrorCallback(ApiError("server down", None))]
            && Complete(env, req.(hasErrorCallback := false, hasViewController := false), c)
               == [DefaultReport("server down", true)]
  {
  }

  /** A listed transport error with a view controller: the retry prompt, and
      the error is still reported. */
  lemma ConnectivityScenario(env: Env, req: Request, t: TransportError)
    requires IsNotConnected(env, t.code) && req.hasViewController && req.hasErrorCallback
    ensures Complete(env, req, Completion(None, Some(t))) == [RetryPrompt(req), ErrorCallback(FromTransport(t))]
  {
  }
}
