/**
 * The client object (src/lib.rs): `Bravia` with its base URL, optional
 * pre-shared key and capability cache, the construction that fills the
 * cache from discovery, and the request builder whose `make` dispatches
 * through it.
 */
module Client {

  import opened Wrappers
  import opened Errors
  import opened Json
  import opened Envelope
  import opened Dispatch
  import opened Guide

  // ---------------------------------------------------------------------------
  // The capability cache, as discovery fills it
  // ---------------------------------------------------------------------------

  /** `api.versions.iter().map(|x| x.version.to_string()).collect()`. */
  function VersionStrings(vs: seq<Versions>): (r: seq<string>)
    ensures |r| == |vs|
    ensures forall i :: 0 <= i < |vs| ==> r[i] == vs[i].version
  {
    seq(|vs|, i requires 0 <= i < |vs| => vs[i].version)
  }

  /** The per-service map after inserting `apis` one by one (a later name replaces an earlier one). */
  function ApisOf(apis: seq<Api>): ApisMap
  {
    if apis == [] then map[]
    else
      var last := apis[|apis| - 1];
      ApisOf(apis[..|apis| - 1])[last.name := VersionStrings(last.versions)]
  }

  /** `m` after inserting each discovered service's API map in turn. */
  function InsertServices(m: ServicesMap, ss: seq<ServiceData>): ServicesMap
  {
    if ss == [] then m
    else
      var last := ss[|ss| - 1];
      InsertServices(m, ss[..|ss| - 1])[last.service := ApisOf(last.apis)]
  }

  /** The cache a fresh client ends up with. */
  function CacheOf(ss: seq<ServiceData>): ServicesMap
  {
    InsertServices(map[], ss)
  }

  /** `apis[i]` is the last entry named `name`. */
  predicate LastApi(apis: seq<Api>, i: int, name: string)
  {
    0 <= i < |apis| && apis[i].name == name && forall j :: i < j < |apis| ==> apis[j].name != name
  }

  /** `ss[i]` is the last entry for service `name`. */
  predicate LastService(ss: seq<ServiceData>, i: int, name: string)
  {
    0 <= i < |ss| && ss[i].service == name && forall j :: i < j < |ss| ==> ss[j].service != name
  }

  /** An API name is in the per-service map exactly when some entry carries it. */
  lemma {:induction false} ApisOfDomain(apis: seq<Api>, name: string)
    ensures name in ApisOf(apis) <==> exists i :: 0 <= i < |apis| && apis[i].name == name
  {
    if apis != [] {
      var n := |apis|;
      var prefix := apis[..n - 1];
      ApisOfDomain(prefix, name);
      if apis[n - 1].name != name {
        if name in ApisOf(prefix) {
          var i :| 0 <= i < n - 1 && prefix[i].name == name;
          assert apis[i].name == name;
        }
        if exists i :: 0 <= i < n && apis[i].name == name {
          var i :| 0 <= i < n && apis[i].name == name;
          assert prefix[i].name == name;
        }
      }
    }
  }

  /** A discovered API name maps to the version strings of its last entry, in the order received. */
  lemma {:induction false} ApisOfLast(apis: seq<Api>, i: int, name: string)
    requires LastApi(apis, i, name)
    ensures name in ApisOf(apis) && ApisOf(apis)[name] == VersionStrings(apis[i].versions)
  {
    var n := |apis|;
    if i < n - 1 {
      var prefix := apis[..n - 1];
      assert prefix[i] == apis[i];
      forall j | i < j < n - 1 ensures prefix[j].name != name {
        assert prefix[j] == apis[j];
      }
      ApisOfLast(prefix, i, name);
    }
  }

  /** A service is in the cache exactly when it was there before or some entry names it. */
  lemma {:induction false} InsertServicesDomain(m: ServicesMap, ss: seq<ServiceData>, name: string)
    ensures name in InsertServices(m, ss) <==> name in m || exists i :: 0 <= i < |ss| && ss[i].service == name
  {
    if ss != [] {
      var n := |ss|;
      var prefix := ss[..n - 1];
      InsertServicesDomain(m, prefix, name);
      if ss[n - 1].service != name {
        if name in InsertServices(m, prefix) && name !in m {
          var i :| 0 <= i < n - 1 && prefix[i].service == name;
          assert ss[i].service == name;
        }
        if exists i :: 0 <= i < n && ss[i].service == name {
          var i :| 0 <= i < n && ss[i].service == name;
          assert prefix[i].service == name;
        }
      }
    }
  }

  /** A discovered service maps to the API map of its last entry. */
  lemma {:induction false} InsertServicesLast(m: ServicesMap, ss: seq<ServiceData>, i: int, name: string)
    requires LastService(ss, i, name)
    ensures name in InsertServices(m, ss) && InsertServices(m, ss)[name] == ApisOf(ss[i].apis)
  {
    var n := |ss|;
    if i < n - 1 {
      var prefix := ss[..n - 1];
      assert prefix[i] == ss[i];
      forall j | i < j < n - 1 ensures prefix[j].service != name {
        assert prefix[j] == ss[j];
      }
      InsertServicesLast(m, prefix, i, name);
    }
  }

  /** A service no entry names keeps what the cache held for it. */
  lemma {:induction false} InsertServicesKeeps(m: ServicesMap, ss: seq<ServiceData>, name: string)
    requires name in m
    requires forall i :: 0 <= i < |ss| ==> ss[i].service != name
    ensures name in InsertServices(m, ss) && InsertServices(m, ss)[name] == m[name]
  {
    if ss != [] {
      var n := |ss|;
      var prefix := ss[..n - 1];
      forall j | 0 <= j < n - 1 ensures prefix[j].service != name {
        assert prefix[j] == ss[j];
      }
      InsertServicesKeeps(m, prefix, name);
    }
  }

  /**
   * After discovery, the support check passes exactly for the versions the
   * device advertised for that API in its last entry for that service.
   */
  lemma DiscoveredSupport(ss: seq<ServiceData>, i: int, k: int, service: string, api: string, level: string)
    requires LastService(ss, i, service) && LastApi(ss[i].apis, k, api)
    ensures IsApiSupported(CacheOf(ss), service, api, level).Ok?
            <==> exists v :: v in ss[i].apis[k].versions && v.version == level
  {
    InsertServicesLast(map[], ss, i, service);
    ApisOfLast(ss[i].apis, k, api);
    var vs := ss[i].apis[k].versions;
    if level in VersionStrings(vs) {
      var j :| 0 <= j < |vs| && VersionStrings(vs)[j] == level;
      assert vs[j] in vs;
    }
  }

  /** A service the device did not advertise is refused before anything is sent. */
  lemma UndiscoveredService(ss: seq<ServiceData>, service: string, api: string, level: string)
    requires forall i :: 0 <= i < |ss| ==> ss[i].service != service
    ensures IsApiSupported(CacheOf(ss), service, api, level) == Err(BraviaApiServiceNotFound)
  {
    InsertServicesDomain(map[], ss, service);
  }

  // ---------------------------------------------------------------------------
  // Bravia
  // ---------------------------------------------------------------------------

  /** `format!("{address}/sony/")`. */
  function BaseUrl(address: string): (url: string)
    ensures |url| == |address| + 6
    ensures url[..|address|] == address && url[|address|..] == "/sony/"
  {
    address + "/sony/"
  }

  /** Discovery from an empty cache reaches `result[0]`, so its unwrap does not panic. */
  predicate DiscoveryDispatches(auth: Option<string>, discovery: HttpOutcome)
  {
    WellDefined(map[], auth, SupportedApiInfoRequest(None), discovery)
    && MakeRequest(map[], auth, SupportedApiInfoRequest(None), discovery).Ok?
  }

  /**
   * The discovery dispatch succeeds exactly when the device answers 200 with
   * a JSON body whose `result` has a first element; otherwise `new` panics.
   */
  lemma DiscoveryDispatchesIff(auth: Option<string>, discovery: HttpOutcome)
    ensures DiscoveryDispatches(auth, discovery) <==>
              discovery.Response? && discovery.status == StatusOk && discovery.body.Parsed?
              && Get(discovery.body.json, "result").Some?
              && At(Get(discovery.body.json, "result").value, 0).Some?
  {
  }

  class Bravia {
    const baseUrl: string
    const auth: Option<string>
    var apiSupport: ServicesMap

    /** The client before discovery: `api_support` empty. */
    constructor Init(address: string, auth: Option<string>)
      ensures baseUrl == BaseUrl(address) && this.auth == auth && apiSupport == map[]
    {
      baseUrl := BaseUrl(address);
      this.auth := auth;
      apiSupport := map[];
    }

    /**
     * `create_supported_api_cache`: discovery of all services, then for each
     * service a fresh per-API map inserted under its name.
     */
    method CreateSupportedApiCache(discovery: HttpOutcome) returns (r: Result<()>)
      requires WellDefined(apiSupport, auth, SupportedApiInfoRequest(None), discovery)
      requires MakeRequest(apiSupport, auth, SupportedApiInfoRequest(None), discovery).Ok?
      modifies this
      ensures var found := GetSupportedApiInfo(old(apiSupport), auth, None, discovery);
              && (found.Err? ==> r == Err(found.error) && apiSupport == old(apiSupport))
              && (found.Ok? ==> r == Ok(()) && apiSupport == InsertServices(old(apiSupport), found.value))
    {
      var found := GetSupportedApiInfo(apiSupport, auth, None, discovery);
      if found.Err? {
        return Err(found.error);
      }
      var services := found.value;
      var i := 0;
      while i < |services|
        invariant 0 <= i <= |services|
        invariant apiSupport == InsertServices(old(apiSupport), services[..i])
      {
        var service := services[i];
        var serviceApis: ApisMap := map[];
        var k := 0;
        while k < |service.apis|
          invariant 0 <= k <= |service.apis|
          invariant serviceApis == ApisOf(service.apis[..k])
        {
          var api := service.apis[k];
          serviceApis := serviceApis[api.name := VersionStrings(api.versions)];
          assert service.apis[..k + 1][..k] == service.apis[..k];
          k := k + 1;
        }
        assert service.apis[..k] == service.apis;
        apiSupport := apiSupport[service.service := serviceApis];
        assert services[..i + 1][..i] == services[..i];
        i := i + 1;
      }
      assert services[..i] == services;
      return Ok(());
    }

    /**
     * `Bravia::new`: the base URL, the stored key, and a cache filled from
     * discovery; an empty or undecodable discovery answer is an error.
     */
    static method New(address: string, auth: Option<string>, discovery: HttpOutcome) returns (r: Result<Bravia>)
      requires DiscoveryDispatches(auth, discovery)
      ensures var found := GetSupportedApiInfo(map[], auth, None, discovery);
              && (found.Err? ==> r == Err(found.error))
              && (found.Ok? ==> r.Ok? && fresh(r.value)
                                && r.value.baseUrl == BaseUrl(address) && r.value.auth == auth
                                && r.value.apiSupport == CacheOf(found.value))
    {
      var ret := new Bravia.Init(address, auth);
      var created := ret.CreateSupportedApiCache(discovery);
      if created.Err? {
        return Err(created.error);
      }
      return Ok(ret);
    }
  }

  // ---------------------------------------------------------------------------
  // RequestBuilder
  // ---------------------------------------------------------------------------

  /**
   * `RequestBuilder` (derive_builder): `endpoint` and `body` are required;
   * `is_protected()` and `has_result()` switch their flag on; `get` defaults
   * to `Index(0)`.
   */
  class RequestBuilder {
    var endpoint: Option<string>
    var body: Option<RequestBody>
    var isProtected: Option<bool>
    var hasResult: Option<bool>
    var get: Option<ElementRule>

    constructor ()
      ensures endpoint == None && body == None && isProtected == None && hasResult == None && get == None
    {
      endpoint, body, isProtected, hasResult, get := None, None, None, None, None;
    }

    method SetEndpoint(value: string)
      modifies this
      ensures endpoint == Some(value)
      ensures body == old(body) && isProtected == old(isProtected) && hasResult == old(hasResult) && get == old(get)
    {
      endpoint := Some(value);
    }

    method SetBody(value: RequestBody)
      modifies this
      ensures body == Some(value)
      ensures endpoint == old(endpoint) && isProtected == old(isProtected) && hasResult == old(hasResult) && get == old(get)
    {
      body := Some(value);
    }

    /** `is_protected()`. */
    method Protect()
      modifies this
      ensures isProtected == Some(true)
      ensures endpoint == old(endpoint) && body == old(body) && hasResult == old(hasResult) && get == old(get)
    {
      isProtected := Some(true);
    }

    /** `has_result()`. */
    method ExpectResult()
      modifies this
      ensures hasResult == Some(true)
      ensures endpoint == old(endpoint) && body == old(body) && isProtected == old(isProtected) && get == old(get)
    {
      hasResult := Some(true);
    }

    method SetGet(value: ElementRule)
      modifies this
      ensures get == Some(value)
      ensures endpoint == old(endpoint) && body == old(body) && isProtected == old(isProtected) && hasResult == old(hasResult)
    {
      get := Some(value);
    }

    /** `build()`: the required fields in declaration order, the flags off and `Index(0)` by default. */
    function Build(): (r: Result<Request>)
      reads this
      ensures r.Ok? <==> endpoint.Some? && body.Some?
      ensures endpoint.None? ==> r == Err(FieldInitialization("endpoint"))
      ensures endpoint.Some? && body.None? ==> r == Err(FieldInitialization("body"))
      ensures r.Ok? ==> r.value.isProtected == (isProtected == Some(true))
      ensures r.Ok? ==> r.value.hasResult == (hasResult == Some(true))
      ensures r.Ok? ==> r.value.get == (if get.Some? then get.value else Index(0))
      ensures r.Ok? ==> r.value.endpoint == endpoint.value && r.value.body == body.value
    {
      if endpoint.None? then Err(FieldInitialization("endpoint"))
      else if body.None? then Err(FieldInitialization("body"))
      else Ok(Request(endpoint.value, body.value, isProtected.GetOr(false), hasResult.GetOr(false), get.GetOr(Index(0))))
    }

    /** `make` does not panic: either building fails, or the dispatch succeeds. */
    predicate CanMake(bravia: Bravia, outcome: HttpOutcome)
      reads this, bravia
    {
      Build().Ok? ==> WellDefined(bravia.apiSupport, bravia.auth, Build().value, outcome)
                      && MakeRequest(bravia.apiSupport, bravia.auth, Build().value, outcome).Ok?
    }

    /**
     * `make`: a build failure is returned; a dispatch failure would be
     * unwrapped into a panic, so only a successful dispatch comes back.
     */
    method Make(bravia: Bravia, outcome: HttpOutcome) returns (r: Result<Json>)
      requires CanMake(bravia, outcome)
      ensures Build().Err? ==> r == Err(Build().error)
      ensures Build().Ok? ==> r == MakeRequest(bravia.apiSupport, bravia.auth, Build().value, outcome)
      ensures Build().Ok? && !Build().value.hasResult ==> r == Ok(Null)
    {
      var request := Build();
      if request.Err? {
        return Err(request.error);
      }
      r := Ok(Dispatch.Make(bravia.apiSupport, bravia.auth, request.value, outcome));
    }
  }
}
