/** `printifyFetch`, the single entry point for calls to the upstream API:
    configuration check, per-shop rate limiting, endpoint templating and URL
    resolution, the request that goes out, and the classification of the
    reply. The network is a parameter: the reply it would give to the request,
    if one is sent. */
module Gateway {
  import opened Wrappers
  import opened Js
  import Text
  import Uri
  import RateLimit

  /** The environment variables read; `None` is an unset variable. */
  datatype Env = Env(viteApiKey: Option<string>, apiKey: Option<string>,
                     viteShopId: Option<string>, shopId: Option<string>)

  datatype Credentials = Credentials(apiKey: string, shopId: string)

  datatype Method = GET | POST | PUT | DELETE

  /** The options object of `printifyFetch`; absent options are `None`. */
  datatype Request = Request(endpoint: string, httpMethod: Option<Method>, body: Option<Json>,
                             shopId: Option<string>)

  /** What is handed to `fetch`. */
  datatype HttpRequest = HttpRequest(url: string, httpMethod: Method,
                                     headers: seq<(string, string)>, body: Option<Json>)

  /** The network's answer: a status and the body, or `None` when the body is
      not valid JSON; or a failure of `fetch` itself. */
  datatype NetworkReply = Reply(status: int, body: Option<Json>) | NetworkFailure(reason: string)

  /** The success value `{status, body}`. */
  datatype ApiResponse = ApiResponse(status: int, body: Json)

  /** The message of an upstream error: the body's truthy `message`, or the
      default text. */
  datatype ErrorMessage = UpstreamMessage(value: Json) | DefaultMessage

  datatype GatewayError =
    | MissingConfiguration
    | RateLimitExceeded(shopId: string, retryAfterSeconds: int)
    | UpstreamApiError(status: int, message: ErrorMessage, details: Json)
    | TransportError(reason: string)
    | TypeError(text: string)

  const ApiUrl: string := "https://api.printify.com/v1"
  const ApiBase: Uri.Uri := Uri.Uri(Some("https"), Some("api.printify.com"), "/v1", None, None)
  const ShopIdPlaceholder: string := "{shop_id}"
  const DefaultErrorText: string := "Printify API request failed"
  const MissingConfigurationText: string := "Printify API key and shop ID must be configured"
  const NullPropertyText: string := "Cannot read properties of null (reading 'message')"

  /** ApiBase is the parsed form of the base URL string. */
  lemma ApiBaseIsParsedApiUrl()
    ensures Uri.Parse(ApiUrl) == ApiBase
    ensures Uri.Recompose(ApiBase) == ApiUrl
  {
    assert ApiUrl == "https" + "://" + "api.printify.com" + "/v1";
    Uri.ParseAbsolute("https", "api.printify.com", "/v1");
    Uri.ParseRecompose(ApiUrl);
  }

  /** The API key and the shop id, each from the first non-empty source:
      `VITE_PRINTIFY_API_KEY || PRINTIFY_API_KEY`, and the caller's shop id
      before `VITE_PRINTIFY_SHOP_ID || PRINTIFY_SHOP_ID`. */
  function ResolveConfig(env: Env, provided: Option<string>): (r: Result<Credentials, GatewayError>)
    ensures r.Success? <==> (Present(env.viteApiKey) || Present(env.apiKey))
                            && (Present(provided) || Present(env.viteShopId) || Present(env.shopId))
    ensures r.Failure? ==> r.error == MissingConfiguration
    ensures r.Success? ==> r.value.apiKey != "" && r.value.shopId != ""
    ensures r.Success? && Present(provided) ==> r.value.shopId == provided.value
    ensures r.Success? && !Present(provided) && Present(env.viteShopId) ==> r.value.shopId == env.viteShopId.value
    ensures r.Success? && Present(env.viteApiKey) ==> r.value.apiKey == env.viteApiKey.value
    ensures r.Success? && !Present(env.viteApiKey) ==> r.value.apiKey == env.apiKey.value
    ensures r.Success? && !Present(provided) && !Present(env.viteShopId) ==> r.value.shopId == env.shopId.value
  {
    var apiKey := Or(env.viteApiKey, env.apiKey);
    var shopId := Or(provided, Or(env.viteShopId, env.shopId));
    if !Present(apiKey) || !Present(shopId) then Failure(MissingConfiguration)
    else Success(Credentials(apiKey.value, shopId.value))
  }

  /** `endpoint.replace('{shop_id}', shopId)`. */
  function ProcessedEndpoint(endpoint: string, shopId: string): string {
    Text.ReplaceFirst(endpoint, ShopIdPlaceholder, shopId)
  }

  /** Only the first placeholder is replaced: whatever follows it, further
      placeholders included, is kept as it is. A shop id without `$` is
      inserted literally. */
  lemma FirstPlaceholderReplaced(p: string, shopId: string, t: string)
    requires '{' !in p && '$' !in shopId
    ensures ProcessedEndpoint(p + ShopIdPlaceholder + t, shopId) == p + shopId + t
  {
    var s := p + ShopIdPlaceholder + t;
    Text.FirstOccurrenceAfter(p, ShopIdPlaceholder, t);
    assert s[..|p|] == p;
    assert s[|p| + |ShopIdPlaceholder|..] == t;
    Text.ReplaceFirstLiteral(s, ShopIdPlaceholder, shopId, |p|);
  }

  /** `new URL(processedEndpoint, apiUrl).toString()`. */
  function RequestUrl(endpoint: string, shopId: string): string {
    Uri.ResolveReference(ApiBase, ProcessedEndpoint(endpoint, shopId))
  }

  /** An endpoint that starts with a single `/` and has no placeholder,
      query, fragment or dot segment replaces the base path `/v1`. */
  lemma AbsoluteEndpointUrl(e: string, shopId: string)
    requires '{' !in e && '?' !in e && '#' !in e
    requires e != [] && e[0] == '/' && !(|e| >= 2 && e[1] == '/') && Uri.PlainPath(e)
    ensures RequestUrl(e, shopId) == "https://api.printify.com" + e
  {
    NoPlaceholder(e, shopId);
    Uri.AbsolutePathReplacesBasePath(ApiBase, e);
    ApiOrigin(e);
  }

  /** A relative endpoint is merged with the directory of `/v1`, which is
      `/`, so `/v1` is dropped here too. */
  lemma RelativeEndpointUrl(e: string, shopId: string)
    requires '{' !in e && '?' !in e && '#' !in e && ':' !in e
    requires e != [] && e[0] != '/' && Uri.PlainPath("/" + e)
    ensures RequestUrl(e, shopId) == "https://api.printify.com/" + e
  {
    NoPlaceholder(e, shopId);
    ApiDirectory(e);
    Uri.RelativePathMergesWithBase(ApiBase, e);
  }

  lemma ApiDirectory(e: string)
    ensures Uri.DirectoryOf(ApiBase.path) == "/"
    ensures ApiBase.scheme.value + "://" + ApiBase.authority.value + Uri.DirectoryOf(ApiBase.path) + e
         == "https://api.printify.com/" + e
  {
    assert Uri.DirectoryOf(ApiBase.path) == "/";
  }

  lemma ApiOrigin(e: string)
    ensures ApiBase.scheme.value + "://" + ApiBase.authority.value + e == "https://api.printify.com" + e
  {
  }

  /** An endpoint without `{` has no placeholder to replace. */
  lemma NoPlaceholder(e: string, shopId: string)
    requires '{' !in e
    ensures ProcessedEndpoint(e, shopId) == e
  {
    forall j | 0 <= j
      ensures !Text.OccursAt(e, ShopIdPlaceholder, j)
    {
      if j + |ShopIdPlaceholder| <= |e| {
        assert e[j] in e;
        assert e[j..j + |ShopIdPlaceholder|][0] == e[j] != ShopIdPlaceholder[0];
      }
    }
  }

  function Headers(apiKey: string): seq<(string, string)> {
    [("Content-Type", "application/json;charset=utf-8"),
     ("Authorization", "Bearer " + apiKey),
     ("User-Agent", "SvelteKit Commerce/1.0"),
     ("Accept", "application/json")]
  }

  /** The request handed to `fetch`: the method defaults to GET, and a body
      is sent only when it is truthy. */
  function BuildRequest(c: Credentials, req: Request): (h: HttpRequest)
    ensures h.url == RequestUrl(req.endpoint, c.shopId)
    ensures req.httpMethod.None? ==> h.httpMethod == GET
    ensures req.httpMethod.Some? ==> h.httpMethod == req.httpMethod.value
    ensures ("Authorization", "Bearer " + c.apiKey) in h.headers
    ensures h.body.Some? <==> req.body.Some? && Truthy(req.body.value)
    ensures h.body.Some? ==> h.body == req.body
  {
    HttpRequest(RequestUrl(req.endpoint, c.shopId), req.httpMethod.GetOr(GET), Headers(c.apiKey),
                if req.body.Some? && Truthy(req.body.value) then req.body else None)
  }

  /** `response.ok`. */
  predicate IsOk(status: int) {
    200 <= status <= 299
  }

  /** The parsed body, `{}` when the body is not valid JSON. */
  function ParsedBody(body: Option<Json>): Json {
    body.GetOr(EmptyObject)
  }

  /** `data.message || 'Printify API request failed'`, for `data` other than `null`. */
  function MessageOf(data: Json): (m: ErrorMessage)
    requires !data.JNull?
    ensures m.UpstreamMessage? ==> Truthy(m.value) && data.JObject?
                                   && "message" in data.fields && data.fields["message"] == m.value
    ensures m.DefaultMessage? ==> Property(data, "message").None? || !Truthy(Property(data, "message").value)
  {
    var m := Property(data, "message");
    if m.Some? && Truthy(m.value) then UpstreamMessage(m.value) else DefaultMessage
  }

  /** The classification as the source writes it: on a non-ok reply whose body
      is the JSON value `null`, reading `data.message` throws a TypeError and
      the upstream status is lost. */
  function ClassifyAsWritten(reply: NetworkReply): Result<ApiResponse, GatewayError> {
    match reply
    case NetworkFailure(reason) => Failure(TransportError(reason))
    case Reply(status, body) =>
      var data := ParsedBody(body);
      if IsOk(status) then Success(ApiResponse(status, data))
      else if data.JNull? then Failure(TypeError(NullPropertyText))
      else Failure(UpstreamApiError(status, MessageOf(data), data))
  }

  /** The counterexample: a 500 reply with body `null`. */
  lemma NullBodyLosesStatus()
    ensures ClassifyAsWritten(Reply(500, Some(JNull))) == Failure(TypeError(NullPropertyText))
    ensures !ClassifyAsWritten(Reply(500, Some(JNull))).error.UpstreamApiError?
  {
  }

  /** The classification as intended, where a `null` body carries no message:
      every non-ok reply becomes an upstream error. */
  function Classify(reply: NetworkReply): (r: Result<ApiResponse, GatewayError>)
    ensures r.Success? <==> reply.Reply? && IsOk(reply.status)
    ensures r.Success? ==> r.value == ApiResponse(reply.status, ParsedBody(reply.body))
    ensures reply.Reply? && !IsOk(reply.status) ==>
              r.Failure? && r.error.UpstreamApiError? && r.error.status == reply.status
              && r.error.details == ParsedBody(reply.body)
    // the message is `data.message` when it is truthy; a `null` body has none
    ensures reply.Reply? && !IsOk(reply.status) ==>
              r.error.message == (if ParsedBody(reply.body).JNull? then DefaultMessage else MessageOf(ParsedBody(reply.body)))
    ensures reply.NetworkFailure? ==> r == Failure(TransportError(reply.reason))
  {
    match reply
    case NetworkFailure(reason) => Failure(TransportError(reason))
    case Reply(status, body) =>
      var data := ParsedBody(body);
      if IsOk(status) then Success(ApiResponse(status, data))
      else Failure(UpstreamApiError(status, if data.JNull? then DefaultMessage else MessageOf(data), data))
  }

  /** The two classifications differ only on a non-ok reply with body `null`. */
  lemma ClassifyAgreesElsewhere(reply: NetworkReply)
    requires !(reply.Reply? && !IsOk(reply.status) && reply.body == Some(JNull))
    ensures ClassifyAsWritten(reply) == Classify(reply)
  {
  }

  /** A body that is not valid JSON is read as `{}`: success carries `{}`,
      and an error carries `{}` as details and the default message. */
  lemma UnparsableBodyIsEmptyObject(status: int)
    ensures Classify(Reply(status, None)) ==
            if IsOk(status) then Success(ApiResponse(status, EmptyObject))
            else Failure(UpstreamApiError(status, DefaultMessage, EmptyObject))
  {
  }

  /** A 404 with body `{"message": "not found"}` is an upstream error with that
      status and message. */
  lemma NotFoundCarriesUpstreamMessage()
    ensures var body := JObject(map["message" := JString("not found")]);
      Classify(Reply(404, Some(body))) == Failure(UpstreamApiError(404, UpstreamMessage(JString("not found")), body))
  {
  }

  /** The result of one call, what was sent, and the limiter's windows after it. */
  datatype Outcome = Outcome(result: Result<ApiResponse, GatewayError>, sent: Option<HttpRequest>,
                             requests: map<RateLimit.ShopId, seq<RateLimit.Timestamp>>)

  /** `printifyFetch(req)` at time `now` on the limiter's windows `requests`,
      where `network` is what the network answers if the request is sent. */
  function Fetch(requests: map<RateLimit.ShopId, seq<RateLimit.Timestamp>>, env: Env, req: Request,
                 now: RateLimit.Timestamp, network: NetworkReply): (o: Outcome)
    // a configuration error comes before the limiter is touched
    ensures ResolveConfig(env, req.shopId).Failure? ==>
              o == Outcome(Failure(MissingConfiguration), None, requests)
    // a request goes out exactly when the configuration is complete and the limiter admits it
    ensures o.sent.Some? <==>
              var c := ResolveConfig(env, req.shopId);
              c.Success? && RateLimit.Decide(RateLimit.WindowOf(requests, c.value.shopId), now).decision.Admitted?
    ensures o.sent.Some? ==>
              o.sent.value == BuildRequest(ResolveConfig(env, req.shopId).value, req) && o.result == Classify(network)
    // the resolved shop's window becomes the one `Decide` gives, and a
    // rejection reports `Decide`'s retry-after
    ensures ResolveConfig(env, req.shopId).Success? ==>
              var c := ResolveConfig(env, req.shopId).value;
              var step := RateLimit.Decide(RateLimit.WindowOf(requests, c.shopId), now);
              o.requests == requests[c.shopId := step.window]
              && (step.decision.Rejected? ==>
                    o.result == Failure(RateLimitExceeded(c.shopId, step.decision.retryAfterSeconds)))
    // without a request there is no success and no upstream or transport error
    ensures o.sent.None? ==>
              o.result.Failure? && (o.result.error.MissingConfiguration? || o.result.error.RateLimitExceeded?)
    // only the window of the resolved shop may change
    ensures forall k :: (ResolveConfig(env, req.shopId).Failure? || k != ResolveConfig(env, req.shopId).value.shopId)
              ==> RateLimit.WindowOf(o.requests, k) == RateLimit.WindowOf(requests, k)
  {
    match ResolveConfig(env, req.shopId)
    case Failure(e) => Outcome(Failure(e), None, requests)
    case Success(c) =>
      var step := RateLimit.Decide(RateLimit.WindowOf(requests, c.shopId), now);
      var after := requests[c.shopId := step.window];
      RateLimit.OnlyOneWindowChanges(requests, c.shopId, step.window);
      match step.decision
      case Rejected(_, seconds) => Outcome(Failure(RateLimitExceeded(c.shopId, seconds)), None, after)
      case Admitted => Outcome(Classify(network), Some(BuildRequest(c, req)), after)
  }

  /** With the configuration in place, a call never hits the network while
      the shop's window is full of recent admissions. */
  lemma FullWindowSendsNothing(requests: map<RateLimit.ShopId, seq<RateLimit.Timestamp>>, env: Env,
                               req: Request, now: RateLimit.Timestamp, network: NetworkReply)
    requires ResolveConfig(env, req.shopId).Success?
    requires var w := RateLimit.WindowOf(requests, ResolveConfig(env, req.shopId).value.shopId);
      |w| == RateLimit.MaxRequests && now - w[0] < RateLimit.RateLimitWindow
    ensures Fetch(requests, env, req, now, network).sent.None?
    ensures Fetch(requests, env, req, now, network).result.error.RateLimitExceeded?
  {
    var w := RateLimit.WindowOf(requests, ResolveConfig(env, req.shopId).value.shopId);
    RateLimit.FullWindowRejects(w, now);
  }

  /** The gateway object's entry point: `printifyFetch` on the shared limiter. */
  method PrintifyFetch(limiter: RateLimit.RateLimiter, env: Env, req: Request,
                       now: RateLimit.Timestamp, network: NetworkReply)
    returns (r: Result<ApiResponse, GatewayError>, sent: Option<HttpRequest>)
    requires limiter.Valid()
    modifies limiter
    ensures limiter.Valid()
    ensures var o := Fetch(old(limiter.requests), env, req, now, network);
      r == o.result && sent == o.sent && limiter.requests == o.requests
  {
    var config := ResolveConfig(env, req.shopId);
    if config.Failure? {
      return Failure(config.error), None;
    }
    var c := config.value;
    var d := limiter.RateLimit(c.shopId, now);
    if d.Rejected? {
      return Failure(RateLimitExceeded(c.shopId, d.retryAfterSeconds)), None;
    }
    var request := BuildRequest(c, req);
    sent := Some(request);
    r := Classify(network);
  }
}
