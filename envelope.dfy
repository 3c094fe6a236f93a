/**
 * The request envelope (src/lib.rs): the JSON-RPC body sent to the device,
 * the per-call description handed to the dispatcher, and the builder that
 * every call site uses to fill in the body.
 */
module Envelope {

  import opened Wrappers
  import opened Errors
  import opened Json

  /** The version a body carries when the caller gives none. */
  const DefaultVersion: string := "1.0"

  /** `RequestBody`: `{"id", "method", "version", "params"}` as serialised. */
  datatype RequestBody = RequestBody(id: nat, methodName: string, version: string, params: seq<Json>)

  /** `RequestGetElementType`: where the useful value sits in the response's `result`. */
  datatype ElementRule =
    | Index(index: nat)   // `result[index]`
    | Text(field: string) // `result[0][field]`

  /** `Request`: the endpoint (service name), the body, and the per-call policy flags. */
  datatype Request = Request(endpoint: string, body: RequestBody, isProtected: bool, hasResult: bool, get: ElementRule)

  /**
   * The body a builder chain produces when the call site sets `id` and
   * `method`, calls `version(v)` and/or `params(p)` or leaves them unset
   * (an unset version and `version(None)` both mean the default).
   */
  function Body(id: nat, name: string, version: Option<string>, param: Option<Json>): (b: RequestBody)
    ensures b.id == id && b.methodName == name
    ensures b.version == version.GetOr(DefaultVersion)
    ensures |b.params| <= 1
    ensures b.params == [] <==> param.None?
    ensures param.Some? ==> b.params == [param.value]
  {
    RequestBody(id, name, version.GetOr(DefaultVersion), if param.Some? then [param.value] else [])
  }

  /**
   * A `RequestBuilder` chain as the call sites write it: `is_protected()`,
   * `has_result()` and `get(..)` are called or not; the element rule
   * defaults to `Index(0)`.
   */
  function Call(endpoint: string, body: RequestBody, isProtected: bool, hasResult: bool, get: Option<ElementRule>): (r: Request)
    ensures r.endpoint == endpoint && r.body == body
    ensures r.isProtected == isProtected && r.hasResult == hasResult
    ensures r.get == get.GetOr(Index(0))
  {
    Request(endpoint, body, isProtected, hasResult, get.GetOr(Index(0)))
  }

  /** The single parameter a request sends, if any. */
  function Param(r: Request): Option<Json>
  {
    if |r.body.params| == 0 then None else Some(r.body.params[0])
  }

  /** The parameter sent is an object with exactly the keys `keys`. */
  predicate SendsObject(r: Request, keys: set<string>)
  {
    Param(r).Some? && Param(r).value.Object? && Param(r).value.fields.Keys == keys
  }

  /** The parameter object sends `v` under `key`. */
  predicate SendsField(r: Request, key: string, v: Json)
  {
    Param(r).Some? && Get(Param(r).value, key) == Some(v)
  }

  /** The string the parameter object carries under `key`, if it carries one. */
  function SentString(r: Request, key: string): Option<string>
  {
    if Param(r).Some? && Get(Param(r).value, key).Some? && Get(Param(r).value, key).value.Str?
    then Some(Get(Param(r).value, key).value.s)
    else None
  }

  /** The request goes to `endpoint` as method `name` with the given id and version tag. */
  predicate Targets(r: Request, endpoint: string, id: nat, name: string, version: string)
  {
    r.endpoint == endpoint && r.body.id == id && r.body.methodName == name && r.body.version == version
  }

  /**
   * `RequestBodyBuilder` (derive_builder): every field starts unset; the
   * custom `version` and `params` setters are the ones at src/lib.rs:65-75.
   */
  class RequestBodyBuilder {
    var id: Option<nat>
    var methodName: Option<string>
    var version: Option<string>
    var params: Option<seq<Json>>

    constructor ()
      ensures id == None && methodName == None && version == None && params == None
    {
      id, methodName, version, params := None, None, None, None;
    }

    method SetId(value: nat)
      modifies this
      ensures id == Some(value)
      ensures methodName == old(methodName) && version == old(version) && params == old(params)
    {
      id := Some(value);
    }

    method SetMethod(value: string)
      modifies this
      ensures methodName == Some(value)
      ensures id == old(id) && version == old(version) && params == old(params)
    {
      methodName := Some(value);
    }

    /** `version(None)` stores the default explicitly; `version(Some(v))` stores `v`. */
    method SetVersion(value: Option<string>)
      modifies this
      ensures version == Some(value.GetOr(DefaultVersion))
      ensures id == old(id) && methodName == old(methodName) && params == old(params)
    {
      version := if value.None? then Some(DefaultVersion) else value;
    }

    /** `params(v)` wraps `v` as a one-element array, replacing any earlier call. */
    method SetParams(value: Json)
      modifies this
      ensures params == Some([value])
      ensures id == old(id) && methodName == old(methodName) && version == old(version)
    {
      params := Some([value]);
    }

    /** `build()`: `id` and `method` are required (checked in that order); the rest default. */
    function Build(): (r: Result<RequestBody>)
      reads this
      ensures r.Ok? <==> id.Some? && methodName.Some?
      ensures id.None? ==> r == Err(FieldInitialization("id"))
      ensures id.Some? && methodName.None? ==> r == Err(FieldInitialization("method"))
      ensures r.Ok? ==> r.value.id == id.value && r.value.methodName == methodName.value
      ensures r.Ok? ==> r.value.version == (if version.Some? then version.value else DefaultVersion)
      ensures r.Ok? ==> r.value.params == (if params.Some? then params.value else [])
    {
      if id.None? then Err(FieldInitialization("id"))
      else if methodName.None? then Err(FieldInitialization("method"))
      else Ok(RequestBody(id.value, methodName.value, version.GetOr(DefaultVersion), params.GetOr([])))
    }
  }

  /**
   * The chain every call site writes: `default().id(..).method(..)`, then
   * `.version(..)` when `callsVersion`, then `.params(..)` when a parameter
   * is given, then `.build()`. It builds exactly `Body(..)`.
   */
  method BuildBody(id: nat, name: string, callsVersion: bool, version: Option<string>, param: Option<Json>)
    returns (r: Result<RequestBody>)
    requires !callsVersion ==> version.None?
    ensures r == Ok(Body(id, name, version, param))
    ensures r.value.version == DefaultVersion <==> version.None? || version == Some(DefaultVersion)
  {
    var b := new RequestBodyBuilder();
    b.SetId(id);
    b.SetMethod(name);
    if callsVersion {
      b.SetVersion(version);
    }
    if param.Some? {
      b.SetParams(param.value);
    }
    r := b.Build();
  }
}
