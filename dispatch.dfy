/**
 * `API.go` and its completion handler: which request is issued, how one
 * completion is classified, and which callbacks, prompts and reports follow.
 * A completion is an input value and its consequences are a list of effects,
 * in the order the handler produces them.
 */
module Dispatch {
  import opened Wrappers
  import Json
  import opened Accessor
  import opened ApiErrors

  /** Process-wide configuration and what the platform supplies: the static
      base `url`, the connectivity error codes, and the library's pretty dump
      of a JSON value. */
  datatype Env = Env(url: string, notConnectedErrors: seq<int>, dump: Json.Value -> string)

  /** The arguments of one `go` call. The callbacks are represented by whether
      an error callback and a view controller were supplied; the success
      callback is always present (it defaults to a no-op). */
  datatype Request = Request(
    url: string,
    endpoint: string,
    parameters: Option<map<string, Json.Value>>,
    hasErrorCallback: bool,
    hasViewController: bool)

  /** The GET request handed to the transport. */
  datatype HttpGet = HttpGet(target: string, parameters: Option<map<string, Json.Value>>)

  datatype HttpResponse = HttpResponse(statusCode: int, data: Option<Json.Value>)

  /** What the transport delivers to the completion handler. */
  datatype Completion = Completion(response: Option<HttpResponse>, error: Option<TransportError>)

  datatype Outcome = Succeeded(body: Json.Value) | Failed(error: ApiError)

  datatype Effect =
    | Success(obj: ApiObject)                   // cbSuccess(obj)
    | RetryPrompt(retry: Request)               // "Connection failed" alert whose Retry action calls go(retry)
    | LogNotConnected                           // "Error: not connected." logged
    | ErrorCallback(error: ApiError)            // cbError(error)
    | DefaultReport(message: string, logged: bool)  // onError: message logged, or put in an alert

  /** The request `go` issues. The target is built from the static base url,
      not from the request's own `url` argument. */
  function Issue(env: Env, req: Request): (g: HttpGet)
    ensures g.target == env.url + req.endpoint && g.parameters == req.parameters
  {
    HttpGet(env.url + req.endpoint, req.parameters)
  }

  /** A 2xx status: its hundreds class is 2. */
  predicate IsSuccessStatus(code: int)
    ensures IsSuccessStatus(code) <==> code / 100 == 2
  {
    200 <= code && code < 300
  }

  /** The body as JSON: an absent body is the null value. */
  function BodyJson(data: Option<Json.Value>): (j: Json.Value)
    ensures data.Some? ==> j == data.value
    ensures data.None? ==> j == Json.Null
  {
    match data
    case Some(v) => v
    case None => Json.Null
  }

  /** Success for a response with a 2xx status, and otherwise the error built
      from the body, from the transport error, or the unknown error. A
      response, when there is one, decides alone: a transport error delivered
      beside it is ignored. */
  function Classify(c: Completion, dump: Json.Value -> string): (o: Outcome)
    ensures o.Succeeded? <==> c.response.Some? && IsSuccessStatus(c.response.value.statusCode)
    ensures o.Succeeded? ==> o.body == BodyJson(c.response.value.data)
    ensures o.Failed? && c.response.Some? ==> o.error == FromJson(BodyJson(c.response.value.data), dump)
    ensures c.response.None? && c.error.Some? ==> o == Failed(FromTransport(c.error.value))
    ensures c.response.None? && c.error.None? ==> o == Failed(Unknown())
  {
    match c.response
    case Some(resp) =>
      var j := BodyJson(resp.data);
      if resp.statusCode >= 200 && resp.statusCode < 300 then Succeeded(j)
      else Failed(FromJson(j, dump))
    case None =>
      match c.error
      case Some(t) => Failed(FromTransport(t))
      case None => Failed(Unknown())
  }

  /** `contains(API.notConnectedErrors, code)` */
  predicate IsNotConnected(env: Env, code: int)
    ensures IsNotConnected(env, code) <==> exists k :: 0 <= k < |env.notConnectedErrors| && env.notConnectedErrors[k] == code
  {
    code in env.notConnectedErrors
  }

  /** `onNotConnected`: a retry prompt that re-issues the same request when a
      view controller is there, a log line otherwise. */
  function OnNotConnected(req: Request): (effs: seq<Effect>)
    ensures |effs| == 1
    ensures effs[0].RetryPrompt? <==> req.hasViewController
    ensures effs[0].RetryPrompt? ==> effs[0].retry == req
    ensures !effs[0].RetryPrompt? ==> effs[0] == LogNotConnected
  {
    if req.hasViewController then [RetryPrompt(req)] else [LogNotConnected]
  }

  /** `onError`: the alert it builds is never presented, so it produces its
      message, logged when there is no view controller. */
  function OnError(e: ApiError, hasViewController: bool): (eff: Effect)
    ensures eff.DefaultReport? && eff.message == OnErrorMessage(e)
    ensures eff.logged <==> !hasViewController
  {
    DefaultReport(OnErrorMessage(e), !hasViewController)
  }

  /** `cbErrorWrapper`: the not-connected handling for a listed code, then,
      always, the error callback or the default report. */
  function ErrorWrapper(env: Env, req: Request, e: ApiError): (effs: seq<Effect>)
    ensures 1 <= |effs| <= 2
    ensures effs[|effs| - 1] == if req.hasErrorCallback then ErrorCallback(e) else OnError(e, req.hasViewController)
    ensures |effs| == 2 <==> e.statusCode.Some? && IsNotConnected(env, e.statusCode.value)
    ensures |effs| == 2 ==> effs[..1] == OnNotConnected(req)
  {
    (if e.statusCode.Some? && IsNotConnected(env, e.statusCode.value) then OnNotConnected(req) else [])
    + [if req.hasErrorCallback then ErrorCallback(e) else OnError(e, req.hasViewController)]
  }

  /** The effects of one completion of the request `req`. */
  function Complete(env: Env, req: Request, c: Completion): (effs: seq<Effect>)
    ensures 1 <= |effs| <= 2
    ensures effs[0].Success? <==> c.response.Some? && IsSuccessStatus(c.response.value.statusCode)
    ensures Classify(c, env.dump).Succeeded? ==> effs == [Success(ApiObject(Classify(c, env.dump).body))]
    ensures Classify(c, env.dump).Failed? ==> effs == ErrorWrapper(env, req, Classify(c, env.dump).error)
  {
    match Classify(c, env.dump)
    case Succeeded(j) => [Success(ApiObject(j))]
    case Failed(e) => ErrorWrapper(env, req, e)
  }

  predicate IsSuccessCall(e: Effect) { e.Success? }
  predicate IsReport(e: Effect) { e.ErrorCallback? || e.DefaultReport? }
  predicate IsNotConnectedHandling(e: Effect) { e.RetryPrompt? || e.LogNotConnected? }
  predicate IsRetryPrompt(e: Effect) { e.RetryPrompt? }

  /** How many effects satisfy `p`. */
  function Count(effs: seq<Effect>, p: Effect -> bool): (n: nat)
    ensures n <= |effs|
  {
    if effs == [] then 0 else (if p(effs[0]) then 1 else 0) + Count(effs[1..], p)
  }

  lemma {:induction false} CountAppend(a: seq<Effect>, b: seq<Effect>, p: Effect -> bool)
    ensures Count(a + b, p) == Count(a, p) + Count(b, p)
  {
    if a == [] {
      assert a + b == b;
    } else {
      assert (a + b)[1..] == a[1..] + b;
      CountAppend(a[1..], b, p);
    }
  }

  /** A 2xx response calls `cbSuccess` once, with an accessor over the body, and nothing else. */
  lemma SuccessCallsOnlySuccess(env: Env, req: Request, c: Completion)
    requires c.response.Some? && IsSuccessStatus(c.response.value.statusCode)
    ensures Complete(env, req, c) == [Success(ApiObject(BodyJson(c.response.value.data)))]
    ensures Count(Complete(env, req, c), IsReport) == 0
  {
  }

  /** Any other completion reports exactly once, last, the error `Classify`
      built: to `cbError` when there is one and through the default report
      otherwise; it never calls `cbSuccess`. */
  lemma ErrorReportedExactlyOnce(env: Env, req: Request, c: Completion)
    requires !(c.response.Some? && IsSuccessStatus(c.response.value.statusCode))
    ensures var effs := Complete(env, req, c);
            && Count(effs, IsSuccessCall) == 0
            && Count(effs, IsReport) == 1
            && (effs[|effs| - 1].ErrorCallback? <==> req.hasErrorCallback)
            && (effs[|effs| - 1].DefaultReport? <==> !req.hasErrorCallback)
            && var e := Classify(c, env.dump).error;
               effs[|effs| - 1] == if req.hasErrorCallback then ErrorCallback(e) else OnError(e, req.hasViewController)
  {
    var e := Classify(c, env.dump).error;
    var pre := if e.statusCode.Some? && IsNotConnected(env, e.statusCode.value) then OnNotConnected(req) else [];
    var last := [if req.hasErrorCallback then ErrorCallback(e) else OnError(e, req.hasViewController)];
    CountAppend(pre, last, IsSuccessCall);
    CountAppend(pre, last, IsReport);
  }

  /** The not-connected handling happens, once, exactly for a transport error
      whose code is listed; it is the retry prompt exactly when a view
      controller is present. An HTTP error response never triggers it, since
      an error built from a body has no status code. */
  lemma NotConnectedOnlyForListedTransportCodes(env: Env, req: Request, c: Completion)
    ensures var effs := Complete(env, req, c);
            var listed := c.response.None? && c.error.Some? && IsNotConnected(env, c.error.value.code);
            && Count(effs, IsNotConnectedHandling) == (if listed then 1 else 0)
            && Count(effs, IsRetryPrompt) == (if listed && req.hasViewController then 1 else 0)
  {
    var o := Classify(c, env.dump);
    if o.Failed? {
      var e := o.error;
      var pre := if e.statusCode.Some? && IsNotConnected(env, e.statusCode.value) then OnNotConnected(req) else [];
      var last := [if req.hasErrorCallback then ErrorCallback(e) else OnError(e, req.hasViewController)];
      CountAppend(pre, last, IsNotConnectedHandling);
      CountAppend(pre, last, IsRetryPrompt);
    }
  }

  /** Choosing Retry re-issues `go` with the identical arguments, so the same
      GET request goes out again. */
  lemma RetryReissuesSameRequest(env: Env, req: Request, c: Completion, k: nat)
    requires k < |Complete(env, req, c)| && Complete(env, req, c)[k].RetryPrompt?
    ensures Complete(env, req, c)[k].retry == req
  {
  }

  /** The `url` argument of `go` does not reach the request: two calls that
      differ only in it issue the same GET. */
  lemma TargetIgnoresUrlArgument(env: Env, req: Request, otherUrl: string)
    ensures Issue(env, req.(url := otherUrl)) == Issue(env, req)
  {
  }
}
