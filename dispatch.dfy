/**
 * The dispatcher (src/lib.rs): the capability cache and its support check,
 * credential resolution, classification of the HTTP outcome, extraction of
 * the wanted value from `result`, and `make`, which unwraps the outcome.
 * The HTTP exchange itself is an input: the outcome the transport produced.
 */
module Dispatch {

  import opened Wrappers
  import opened Errors
  import opened Json
  import opened Envelope

  /** service name -> API name -> the version strings the device advertises. */
  type VersionsVec = seq<string>
  type ApisMap = map<string, VersionsVec>
  type ServicesMap = map<string, ApisMap>

  /** The discovery method: the one call the support check never gates. */
  const DiscoveryMethod: string := "getSupportedApiInfo"

  /** The only status `make_request` accepts (`StatusCode::OK`). */
  const StatusOk: nat := 200

  /** `usize` on the 64-bit targets the client runs on. */
  const UsizeLimit: nat := 0x1_0000_0000_0000_0000

  // ---------------------------------------------------------------------------
  // Support check
  // ---------------------------------------------------------------------------

  /**
   * `is_api_supported`: the service, then the API, then the version, each
   * failure with its own error.
   */
  function IsApiSupported(cache: ServicesMap, service: string, api: string, level: string): (r: Result<()>)
    ensures r.Ok? <==> service in cache && api in cache[service] && level in cache[service][api]
    ensures service !in cache ==> r == Err(BraviaApiServiceNotFound)
    ensures service in cache && api !in cache[service] ==> r == Err(BraviaApiNotFound)
    ensures service in cache && api in cache[service] && level !in cache[service][api] ==> r == Err(BraviaApiLevelError)
  {
    if service in cache then
      if api in cache[service] then
        if level in cache[service][api] then Ok(()) else Err(BraviaApiLevelError)
      else Err(BraviaApiNotFound)
    else Err(BraviaApiServiceNotFound)
  }

  // ---------------------------------------------------------------------------
  // What is sent
  // ---------------------------------------------------------------------------

  /**
   * Steps that precede any network traffic: the support check (skipped for
   * the discovery method) and then the credential (`X-Auth-PSK`) to send.
   */
  function Credential(cache: ServicesMap, auth: Option<string>, req: Request): (r: Result<string>)
    ensures req.body.methodName != DiscoveryMethod
            && IsApiSupported(cache, req.endpoint, req.body.methodName, req.body.version).Err?
            ==> r == Err(IsApiSupported(cache, req.endpoint, req.body.methodName, req.body.version).error)
    ensures r.Ok? ==> req.body.methodName == DiscoveryMethod
                      || IsApiSupported(cache, req.endpoint, req.body.methodName, req.body.version).Ok?
    ensures r.Ok? ==> (if req.isProtected then auth.Some? && r.value == auth.value else r.value == "")
    ensures r.Ok? <==> (req.body.methodName == DiscoveryMethod
                        || IsApiSupported(cache, req.endpoint, req.body.methodName, req.body.version).Ok?)
                       && (req.isProtected ==> auth.Some?)
    ensures (req.body.methodName == DiscoveryMethod
             || IsApiSupported(cache, req.endpoint, req.body.methodName, req.body.version).Ok?)
            && req.isProtected && auth.None?
            ==> r == Err(BraviaAuthLevelError)
  {
    var check := IsApiSupported(cache, req.endpoint, req.body.methodName, req.body.version);
    if req.body.methodName != DiscoveryMethod && check.Err? then Err(check.error)
    else if req.isProtected then
      if auth.Some? then Ok(auth.value) else Err(BraviaAuthLevelError)
    else Ok("")
  }

  /** The POST `make_request` issues: URL, pre-shared key header, body. */
  datatype Post = Post(url: string, psk: string, body: RequestBody)

  /** `format!("{}{}", self.base_url, req.endpoint)`. */
  function RequestUrl(baseUrl: string, endpoint: string): (url: string)
    ensures |url| == |baseUrl| + |endpoint|
    ensures url[..|baseUrl|] == baseUrl && url[|baseUrl|..] == endpoint
  {
    baseUrl + endpoint
  }

  /** The request put on the wire, or the local failure that stops it from being sent. */
  function Outgoing(baseUrl: string, cache: ServicesMap, auth: Option<string>, req: Request): (r: Result<Post>)
    ensures r.Ok? <==> Credential(cache, auth, req).Ok?
    ensures r.Err? ==> r.error == Credential(cache, auth, req).error
    ensures r.Ok? ==> r.value == Post(RequestUrl(baseUrl, req.endpoint), Credential(cache, auth, req).value, req.body)
  {
    match Credential(cache, auth, req)
    case Err(e) => Err(e)
    case Ok(psk) => Ok(Post(RequestUrl(baseUrl, req.endpoint), psk, req.body))
  }

  // ---------------------------------------------------------------------------
  // What comes back
  // ---------------------------------------------------------------------------

  /** The body of an HTTP response: JSON, or a text `resp.json()` cannot parse. */
  datatype ResponseBody = Parsed(json: Json) | Unparsable(cause: string)

  /** The outcome of the exchange, as the transport reports it. */
  datatype HttpOutcome = TransportFailure(cause: string) | Response(status: nat, body: ResponseBody)

  /**
   * Deserialising `BraviaErrorCode`: the object form
   * `{"code": usize, "message": String}`, or the sequence form
   * `[code, message]` that serde also accepts for a struct.
   */
  function DecodeErrorCode(j: Json): (r: Result<BraviaErrorCode>)
    ensures j.Object? && r.Ok? ==> Get(j, "code") == Some(Number(r.value.code)) && Get(j, "message") == Some(Str(r.value.message))
    ensures j.Object? ==> (r.Ok? <==> Get(j, "code").Some? && Get(j, "code").value.Number?
                                      && 0 <= Get(j, "code").value.n < UsizeLimit
                                      && Get(j, "message").Some? && Get(j, "message").value.Str?)
    ensures j.Array? ==> (r.Ok? <==> |j.items| == 2 && j.items[0].Number? && 0 <= j.items[0].n < UsizeLimit && j.items[1].Str?)
    ensures j.Array? && r.Ok? ==> j.items == [Number(r.value.code), Str(r.value.message)]
    ensures !j.Object? && !j.Array? ==> r == Err(DeserializeError)
    ensures r.Err? ==> r.error == DeserializeError
  {
    if j.Array? then
      if |j.items| == 2 then
        var code :- AsUnsigned(j.items[0], UsizeLimit);
        var message :- AsString(j.items[1]);
        Ok(BraviaErrorCode(code, message))
      else Err(DeserializeError)
    else
      var code :- Required(j, "code", (v: Json) => AsUnsigned(v, UsizeLimit));
      var message :- Required(j, "message", AsString);
      Ok(BraviaErrorCode(code, message))
  }

  /** The device's side: an error object as the device writes it. */
  function EncodeErrorCode(c: BraviaErrorCode): Json
  {
    Object(map["code" := Number(c.code), "message" := Str(c.message)])
  }

  lemma ErrorCodeRoundTrip(c: BraviaErrorCode)
    requires c.code < UsizeLimit
    ensures DecodeErrorCode(EncodeErrorCode(c)) == Ok(c)
  {
    var j := EncodeErrorCode(c);
    assert Get(j, "code") == Some(Number(c.code));
    assert Get(j, "message") == Some(Str(c.message));
  }

  /**
   * `result[0]` is evaluated through `IndexMut`, which panics unless `result`
   * is an array with a first element: a by-name rule needs one.
   */
  predicate ExtractionDefined(result: Json, rule: ElementRule)
  {
    rule.Text? ==> result.Array? && |result.items| > 0
  }

  /** The wanted value out of `result`, or `MissingValue("result values")`. */
  function Extract(result: Json, rule: ElementRule): (r: Result<Json>)
    requires ExtractionDefined(result, rule)
    ensures r.Err? ==> r.error == MissingValue("result values")
    ensures rule.Index? ==> (r.Ok? <==> result.Array? && rule.index < |result.items|)
    ensures rule.Index? && r.Ok? ==> r.value == result.items[rule.index]
    ensures rule.Text? ==> (r.Ok? <==> result.items[0].Object? && rule.field in result.items[0].fields)
    ensures rule.Text? && r.Ok? ==> r.value == result.items[0].fields[rule.field]
  {
    var found := match rule
      case Index(i) => At(result, i)
      case Text(f) => Get(result.items[0], f);
    if found.Some? then Ok(found.value) else Err(MissingValue("result values"))
  }

  /** The exchange reaches the by-name extraction with a `result` it cannot index. */
  predicate Panics(req: Request, outcome: HttpOutcome)
  {
    && req.hasResult
    && outcome.Response? && outcome.status == StatusOk && outcome.body.Parsed?
    && Get(outcome.body.json, "result").Some?
    && !ExtractionDefined(Get(outcome.body.json, "result").value, req.get)
  }

  /**
   * The HTTP part of `make_request`: transport failure, status, then the
   * body: `result` is looked at before `error`.
   */
  function Classify(req: Request, outcome: HttpOutcome): (r: Result<Json>)
    requires !Panics(req, outcome)
    ensures outcome.TransportFailure? ==> r == Err(NetworkError(outcome.cause))
    ensures outcome.Response? && outcome.status != StatusOk ==> r == Err(BadStatus(outcome.status))
    ensures outcome.Response? && outcome.status == StatusOk && outcome.body.Unparsable?
            ==> r == Err(NetworkError(outcome.body.cause))
    ensures outcome.Response? && outcome.status == StatusOk && outcome.body.Parsed?
            && Get(outcome.body.json, "result").None? && Get(outcome.body.json, "error").None?
            ==> r == Err(InvalidResponse("Missing result and error fields."))
    ensures r.Ok? ==> outcome.Response? && outcome.status == StatusOk && outcome.body.Parsed?
                      && Get(outcome.body.json, "result").Some?
    ensures r.Ok? && !req.hasResult ==> r.value == Null
    ensures r.Ok? && req.hasResult ==> Extract(Get(outcome.body.json, "result").value, req.get) == r
    ensures outcome.Response? && outcome.status == StatusOk && outcome.body.Parsed?
            && Get(outcome.body.json, "result").Some?
            ==> r == (if req.hasResult then Extract(Get(outcome.body.json, "result").value, req.get) else Ok(Null))
    ensures outcome.Response? && outcome.status == StatusOk && outcome.body.Parsed?
            && Get(outcome.body.json, "result").None? && Get(outcome.body.json, "error").Some?
            ==> var decoded := DecodeErrorCode(Get(outcome.body.json, "error").value);
                r == (if decoded.Ok? then Err(BraviaError(decoded.value)) else Err(decoded.error))
    ensures r.Err? && r.error.BraviaError? ==>
              outcome.Response? && outcome.status == StatusOk && outcome.body.Parsed?
              && Get(outcome.body.json, "result").None? && Get(outcome.body.json, "error").Some?
              && DecodeErrorCode(Get(outcome.body.json, "error").value) == Ok(r.error.err)
  {
    match outcome
    case TransportFailure(cause) => Err(NetworkError(cause))
    case Response(status, body) =>
      if status != StatusOk then Err(BadStatus(status))
      else match body
        case Unparsable(cause) => Err(NetworkError(cause))
        case Parsed(parsed) =>
          if Get(parsed, "result").Some? then
            if req.hasResult then Extract(Get(parsed, "result").value, req.get) else Ok(Null)
          else if Get(parsed, "error").Some? then
            match DecodeErrorCode(Get(parsed, "error").value)
            case Ok(code) => Err(BraviaError(code))
            case Err(e) => Err(e)
          else Err(InvalidResponse("Missing result and error fields."))
  }

  /** `make_request` does not panic for this input. */
  predicate WellDefined(cache: ServicesMap, auth: Option<string>, req: Request, outcome: HttpOutcome)
  {
    Credential(cache, auth, req).Ok? ==> !Panics(req, outcome)
  }

  /**
   * `make_request`: local checks first; only a request that passes them
   * reaches the device, and its outcome is then classified.
   */
  function MakeRequest(cache: ServicesMap, auth: Option<string>, req: Request, outcome: HttpOutcome): (r: Result<Json>)
    requires WellDefined(cache, auth, req, outcome)
    ensures req.body.methodName != DiscoveryMethod
            && IsApiSupported(cache, req.endpoint, req.body.methodName, req.body.version).Err?
            ==> r == Err(IsApiSupported(cache, req.endpoint, req.body.methodName, req.body.version).error)
    ensures req.isProtected && auth.None? ==> r.Err? && IsLocalFailure(r.error)
    ensures r.Err? && IsLocalFailure(r.error) ==> Credential(cache, auth, req).Err?
    ensures (req.body.methodName == DiscoveryMethod
             || IsApiSupported(cache, req.endpoint, req.body.methodName, req.body.version).Ok?)
            && req.isProtected && auth.None?
            ==> r == Err(BraviaAuthLevelError)
    ensures Credential(cache, auth, req).Err? ==> r == Err(Credential(cache, auth, req).error)
    ensures Credential(cache, auth, req).Ok? ==> r == Classify(req, outcome)
    ensures r.Ok? ==> (req.body.methodName == DiscoveryMethod
                       || IsApiSupported(cache, req.endpoint, req.body.methodName, req.body.version).Ok?)
                      && (req.isProtected ==> auth.Some?)
                      && Classify(req, outcome) == r
  {
    match Credential(cache, auth, req)
    case Err(e) => Err(e)
    case Ok(_) => Classify(req, outcome)
  }

  /**
   * `RequestBuilder::make` for a fully built request: the result of
   * `make_request`, unwrapped. The unwrap panics on any dispatch error, so
   * the dispatch must succeed.
   */
  function Make(cache: ServicesMap, auth: Option<string>, req: Request, outcome: HttpOutcome): (v: Json)
    requires WellDefined(cache, auth, req, outcome) && MakeRequest(cache, auth, req, outcome).Ok?
    ensures !req.hasResult ==> v == Null
    ensures req.hasResult ==> Extract(Get(outcome.body.json, "result").value, req.get) == Ok(v)
  {
    MakeRequest(cache, auth, req, outcome).value
  }

  // ---------------------------------------------------------------------------
  // Relations between dispatches
  // ---------------------------------------------------------------------------

  /** A request stopped locally never reaches the device: its result is the same whatever the device would answer. */
  lemma NotSentIgnoresOutcome(baseUrl: string, cache: ServicesMap, auth: Option<string>, req: Request, o1: HttpOutcome, o2: HttpOutcome)
    requires Outgoing(baseUrl, cache, auth, req).Err?
    ensures WellDefined(cache, auth, req, o1) && WellDefined(cache, auth, req, o2)
    ensures MakeRequest(cache, auth, req, o1) == MakeRequest(cache, auth, req, o2) == Err(Outgoing(baseUrl, cache, auth, req).error)
  {
  }

  /** Discovery is never gated: its dispatch does not depend on the cache, whatever the endpoint. */
  lemma DiscoveryIgnoresCache(c1: ServicesMap, c2: ServicesMap, auth: Option<string>, req: Request, outcome: HttpOutcome)
    requires req.body.methodName == DiscoveryMethod
    requires WellDefined(c1, auth, req, outcome)
    ensures WellDefined(c2, auth, req, outcome)
    ensures MakeRequest(c1, auth, req, outcome) == MakeRequest(c2, auth, req, outcome)
  {
  }

  /** An unprotected request sends an empty key even when one is stored; a protected one sends the stored key unchanged. */
  lemma CredentialSent(baseUrl: string, cache: ServicesMap, auth: Option<string>, req: Request)
    requires Outgoing(baseUrl, cache, auth, req).Ok?
    ensures !req.isProtected ==> Outgoing(baseUrl, cache, auth, req).value.psk == ""
    ensures req.isProtected ==> auth.Some? && Outgoing(baseUrl, cache, auth, req).value.psk == auth.value
    ensures Outgoing(baseUrl, cache, auth, req).value.body == req.body
  {
  }

  // ---------------------------------------------------------------------------
  // Device replies read back
  // ---------------------------------------------------------------------------

  /** A successful reply as the device writes it. */
  function ResultReply(items: seq<Json>): Json
  {
    Object(map["result" := Array(items)])
  }

  /** An error reply as the device writes it. */
  function ErrorReply(c: BraviaErrorCode): Json
  {
    Object(map["error" := EncodeErrorCode(c)])
  }

  /** A device error comes back to the caller as exactly that code and message. */
  lemma DeviceErrorReadBack(req: Request, c: BraviaErrorCode)
    requires c.code < UsizeLimit
    ensures !Panics(req, Response(StatusOk, Parsed(ErrorReply(c))))
    ensures Classify(req, Response(StatusOk, Parsed(ErrorReply(c)))) == Err(BraviaError(c))
  {
    ErrorCodeRoundTrip(c);
    assert Get(ErrorReply(c), "result") == None;
  }

  /** The element a by-index request asks for comes back unchanged when the device sends it. */
  lemma DeviceResultReadBack(req: Request, items: seq<Json>)
    requires req.hasResult && req.get.Index? && req.get.index < |items|
    ensures !Panics(req, Response(StatusOk, Parsed(ResultReply(items))))
    ensures Classify(req, Response(StatusOk, Parsed(ResultReply(items)))) == Ok(items[req.get.index])
  {
    assert Get(ResultReply(items), "result") == Some(Array(items));
  }

  /**
   * A reply carrying both `result` and `error` is read through `result`
   * alone: `error` is never looked at, whatever it holds.
   */
  lemma ResultBeforeError(req: Request, result: Json, error: Json)
    requires !Panics(req, Response(StatusOk, Parsed(Object(map["result" := result, "error" := error]))))
    ensures !Panics(req, Response(StatusOk, Parsed(Object(map["result" := result]))))
    ensures Classify(req, Response(StatusOk, Parsed(Object(map["result" := result, "error" := error]))))
            == (if req.hasResult then Extract(result, req.get) else Ok(Null))
            == Classify(req, Response(StatusOk, Parsed(Object(map["result" := result]))))
  {
    var j := Object(map["result" := result, "error" := error]);
    assert Get(j, "result") == Some(result);
    assert Get(Object(map["result" := result]), "result") == Some(result);
  }

  /** The field a by-name request asks for comes back unchanged when the device sends it in `result[0]`. */
  lemma DeviceFieldReadBack(req: Request, v: Json, rest: seq<Json>)
    requires req.hasResult && req.get.Text?
    ensures !Panics(req, Response(StatusOk, Parsed(ResultReply([Object(map[req.get.field := v])] + rest))))
    ensures Classify(req, Response(StatusOk, Parsed(ResultReply([Object(map[req.get.field := v])] + rest)))) == Ok(v)
  {
    var items := [Object(map[req.get.field := v])] + rest;
    assert Get(ResultReply(items), "result") == Some(Array(items));
    assert items[0] == Object(map[req.get.field := v]);
  }

  /** A by-name request answered with an empty `result` array reaches the panicking `result[0]`. */
  lemma EmptyResultPanics(req: Request)
    requires req.hasResult && req.get.Text?
    ensures Panics(req, Response(StatusOk, Parsed(ResultReply([]))))
  {
    assert Get(ResultReply([]), "result") == Some(Array([]));
  }
}
