/**
 * The guide service (src/guide/mod.rs): the discovery records, the
 * orderings defined on them, and `get_supported_api_info`, the discovery
 * call that fills the capability cache.
 */
module Guide {

  import opened Wrappers
  import opened Errors
  import opened Json
  import opened Envelope
  import opened Dispatch

  const Endpoint: string := "guide"

  /** One supported version of an API: its version string, transports and authentication level. */
  datatype Versions = Versions(version: string, protocols: Option<seq<string>>, authLevel: Option<string>)

  datatype Api = Api(name: string, versions: seq<Versions>)

  datatype Notifications = Notifications(name: string, versions: seq<Versions>)

  datatype ServiceData = ServiceData(apis: seq<Api>, notifications: Option<seq<Notifications>>, service: string, protocols: seq<string>)

  // ---------------------------------------------------------------------------
  // Orderings
  // ---------------------------------------------------------------------------

  datatype Ordering = Less | Equal | Greater

  function Reverse(o: Ordering): Ordering
  {
    match o
    case Less => Greater
    case Equal => Equal
    case Greater => Less
  }

  /**
   * `String::cmp`: lexicographic over the characters (UTF-8 byte order and
   * code point order agree), a proper prefix first.
   */
  function CompareStrings(a: string, b: string): Ordering
  {
    if a == [] && b == [] then Equal
    else if a == [] then Less
    else if b == [] then Greater
    else if a[0] < b[0] then Less
    else if a[0] > b[0] then Greater
    else CompareStrings(a[1..], b[1..])
  }

  lemma {:induction false} CompareStringsAntisymmetric(a: string, b: string)
    ensures CompareStrings(b, a) == Reverse(CompareStrings(a, b))
  {
    if a != [] && b != [] && a[0] == b[0] {
      CompareStringsAntisymmetric(a[1..], b[1..]);
    }
  }

  lemma {:induction false} CompareStringsEqual(a: string, b: string)
    ensures CompareStrings(a, b) == Equal <==> a == b
  {
    if a != [] && b != [] && a[0] == b[0] {
      CompareStringsEqual(a[1..], b[1..]);
      if a[1..] == b[1..] {
        assert a == [a[0]] + a[1..] && b == [b[0]] + b[1..];
      }
    }
  }

  lemma {:induction false} CompareStringsTransitive(a: string, b: string, c: string)
    requires CompareStrings(a, b) != Greater && CompareStrings(b, c) != Greater
    ensures CompareStrings(a, c) != Greater
  {
    if a != [] && b != [] && c != [] && a[0] == b[0] == c[0] {
      CompareStringsTransitive(a[1..], b[1..], c[1..]);
    }
  }

  /** `Ord for Versions`: by the version string alone. */
  function CompareVersions(a: Versions, b: Versions): Ordering
  {
    CompareStrings(a.version, b.version)
  }

  /**
   * Versions order as text, not as numbers, and two entries with the same
   * version string compare `Equal` whatever their transports and
   * authentication levels, although the derived `==` tells them apart.
   */
  lemma VersionsOrderIsTextual(a: Versions, b: Versions)
    ensures CompareVersions(Versions("1.10", None, None), Versions("1.2", None, None)) == Less
    ensures CompareVersions(a, b) == Equal <==> a.version == b.version
    ensures CompareVersions(Versions("1.0", None, None), Versions("1.0", Some(["xhrpost:jsonizer"]), Some("private"))) == Equal
  {
    CompareStringsEqual(a.version, b.version);
    assert "1.10"[1..] == ".10" && "1.2"[1..] == ".2";
    assert ".10"[1..] == "10" && ".2"[1..] == "2";
  }

  /**
   * `versions.iter().max()`: `None` for no versions; among equal maxima the
   * last one is returned.
   */
  function MaxVersions(vs: seq<Versions>): (r: Option<Versions>)
    ensures r.None? <==> vs == []
    ensures r.Some? ==> r.value in vs
    ensures r.Some? ==> forall v :: v in vs ==> CompareVersions(v, r.value) != Greater
  {
    if vs == [] then None
    else
      var last := vs[|vs| - 1];
      match MaxVersions(vs[..|vs| - 1])
      case None =>
        assert vs == [last];
        CompareStringsEqual(last.version, last.version);
        Some(last)
      case Some(m) =>
        var r := if CompareVersions(m, last) == Greater then m else last;
        assert forall v :: v in vs ==> v in vs[..|vs| - 1] || v == last;
        CompareStringsAntisymmetric(m.version, last.version);
        CompareStringsEqual(last.version, last.version);
        forall v | v in vs[..|vs| - 1]
          ensures CompareVersions(v, r) != Greater
        {
          if r == last { CompareStringsTransitive(v.version, m.version, last.version); }
        }
        Some(r)
  }

  /** Among several equal maxima, `max` picks the last: every later entry is strictly smaller. */
  lemma {:induction false} MaxVersionsIsLast(vs: seq<Versions>)
    requires vs != []
    ensures exists i :: 0 <= i < |vs| && vs[i] == MaxVersions(vs).value
                        && forall j :: i < j < |vs| ==> CompareVersions(vs[j], vs[i]) == Less
  {
    var n := |vs|;
    var last := vs[n - 1];
    var prefix := vs[..n - 1];
    if prefix == [] {
      assert vs[n - 1] == MaxVersions(vs).value;
    } else {
      MaxVersionsIsLast(prefix);
      var m := MaxVersions(prefix).value;
      if CompareVersions(m, last) == Greater {
        var i :| 0 <= i < n - 1 && prefix[i] == m
                 && forall j :: i < j < n - 1 ==> CompareVersions(prefix[j], prefix[i]) == Less;
        CompareStringsAntisymmetric(m.version, last.version);
        assert vs[i] == m && forall j :: i < j < n ==> CompareVersions(vs[j], vs[i]) == Less;
      } else {
        assert vs[n - 1] == MaxVersions(vs).value;
      }
    }
  }

  /** `Option<&Versions>::cmp`: `None` first. */
  function CompareMax(a: Option<Versions>, b: Option<Versions>): Ordering
  {
    match (a, b)
    case (None, None) => Equal
    case (None, Some(_)) => Less
    case (Some(_), None) => Greater
    case (Some(x), Some(y)) => CompareVersions(x, y)
  }

  /** `Ord for Api`: by the greatest version. */
  function CompareApi(a: Api, b: Api): Ordering
  {
    CompareMax(MaxVersions(a.versions), MaxVersions(b.versions))
  }

  /** `Ord for Notifications`: by the greatest version. */
  function CompareNotifications(a: Notifications, b: Notifications): Ordering
  {
    CompareMax(MaxVersions(a.versions), MaxVersions(b.versions))
  }

  /**
   * APIs compare by their greatest version string: one with no versions
   * sorts below any with some, and the comparison is antisymmetric.
   */
  lemma CompareApiByMaximum(a: Api, b: Api)
    ensures a.versions == [] && b.versions != [] ==> CompareApi(a, b) == Less
    ensures a.versions == [] && b.versions == [] ==> CompareApi(a, b) == Equal
    ensures CompareApi(b, a) == Reverse(CompareApi(a, b))
    ensures a.versions != [] && b.versions != [] ==>
              (CompareApi(a, b) == Less <==>
                 exists w :: w in b.versions && forall v :: v in a.versions ==> CompareVersions(v, w) == Less)
  {
    var ma, mb := MaxVersions(a.versions), MaxVersions(b.versions);
    if ma.Some? && mb.Some? {
      CompareStringsAntisymmetric(ma.value.version, mb.value.version);
      if CompareApi(a, b) == Less {
        forall v | v in a.versions
          ensures CompareVersions(v, mb.value) == Less
        {
          LessAfterNotGreater(v.version, ma.value.version, mb.value.version);
        }
      }
      if exists w :: w in b.versions && forall v :: v in a.versions ==> CompareVersions(v, w) == Less {
        var w :| w in b.versions && forall v :: v in a.versions ==> CompareVersions(v, w) == Less;
        assert CompareVersions(ma.value, w) == Less;
        LessBeforeNotGreater(ma.value.version, w.version, mb.value.version);
      }
    }
  }

  /** The same ordering facts hold for notifications. */
  lemma CompareNotificationsByMaximum(a: Notifications, b: Notifications)
    ensures a.versions == [] && b.versions != [] ==> CompareNotifications(a, b) == Less
    ensures a.versions == [] && b.versions == [] ==> CompareNotifications(a, b) == Equal
    ensures CompareNotifications(b, a) == Reverse(CompareNotifications(a, b))
    ensures a.versions != [] && b.versions != [] ==>
              (CompareNotifications(a, b) == Less <==>
                 exists w :: w in b.versions && forall v :: v in a.versions ==> CompareVersions(v, w) == Less)
  {
    var ma, mb := MaxVersions(a.versions), MaxVersions(b.versions);
    if ma.Some? && mb.Some? {
      CompareStringsAntisymmetric(ma.value.version, mb.value.version);
      if CompareNotifications(a, b) == Less {
        forall v | v in a.versions
          ensures CompareVersions(v, mb.value) == Less
        {
          LessAfterNotGreater(v.version, ma.value.version, mb.value.version);
        }
      }
      if exists w :: w in b.versions && forall v :: v in a.versions ==> CompareVersions(v, w) == Less {
        var w :| w in b.versions && forall v :: v in a.versions ==> CompareVersions(v, w) == Less;
        assert CompareVersions(ma.value, w) == Less;
        LessBeforeNotGreater(ma.value.version, w.version, mb.value.version);
      }
    }
  }

  lemma {:induction false} LessAfterNotGreater(a: string, b: string, c: string)
    requires CompareStrings(a, b) != Greater && CompareStrings(b, c) == Less
    ensures CompareStrings(a, c) == Less
  {
    CompareStringsTransitive(a, b, c);
    CompareStringsEqual(a, c);
    CompareStringsAntisymmetric(b, c);
  }

  lemma {:induction false} LessBeforeNotGreater(a: string, b: string, c: string)
    requires CompareStrings(a, b) == Less && CompareStrings(b, c) != Greater
    ensures CompareStrings(a, c) == Less
  {
    CompareStringsTransitive(a, b, c);
    CompareStringsEqual(a, c);
    CompareStringsAntisymmetric(a, b);
  }

  // ---------------------------------------------------------------------------
  // Wire forms (serde's derived Serialize / Deserialize, camelCase names)
  // ---------------------------------------------------------------------------

  function DecodeStrings(j: Json): Result<seq<string>>
  {
    DecodeArray(j, AsString)
  }

  function DecodeVersions(j: Json): Result<Versions>
  {
    var version :- Required(j, "version", AsString);
    var protocols :- Optional(j, "protocols", DecodeStrings);
    var authLevel :- Optional(j, "authLevel", AsString);
    Ok(Versions(version, protocols, authLevel))
  }

  function DecodeVersionsList(j: Json): Result<seq<Versions>>
  {
    DecodeArray(j, DecodeVersions)
  }

  function DecodeApi(j: Json): Result<Api>
  {
    var name :- Required(j, "name", AsString);
    var versions :- Required(j, "versions", DecodeVersionsList);
    Ok(Api(name, versions))
  }

  function DecodeNotifications(j: Json): Result<Notifications>
  {
    var name :- Required(j, "name", AsString);
    var versions :- Required(j, "versions", DecodeVersionsList);
    Ok(Notifications(name, versions))
  }

  function DecodeApiList(j: Json): Result<seq<Api>>
  {
    DecodeArray(j, DecodeApi)
  }

  function DecodeNotificationsList(j: Json): Result<seq<Notifications>>
  {
    DecodeArray(j, DecodeNotifications)
  }

  function DecodeServiceData(j: Json): Result<ServiceData>
  {
    var apis :- Required(j, "apis", DecodeApiList);
    var notifications :- Optional(j, "notifications", DecodeNotificationsList);
    var service :- Required(j, "service", AsString);
    var protocols :- Required(j, "protocols", DecodeStrings);
    Ok(ServiceData(apis, notifications, service, protocols))
  }

  /** `serde_json::from_value::<Vec<ServiceData>>`. */
  function DecodeServiceList(j: Json): Result<seq<ServiceData>>
  {
    DecodeArray(j, DecodeServiceData)
  }

  function EncodeStrings(xs: seq<string>): Json
  {
    FromStrings(xs)
  }

  function EncodeVersions(v: Versions): Json
  {
    Object(map["version" := Str(v.version),
               "protocols" := EncodeOption(v.protocols, EncodeStrings),
               "authLevel" := FromOptString(v.authLevel)])
  }

  function EncodeApi(a: Api): Json
  {
    Object(map["name" := Str(a.name), "versions" := Array(EncodeItems(a.versions, EncodeVersions))])
  }

  function EncodeNotifications(n: Notifications): Json
  {
    Object(map["name" := Str(n.name), "versions" := Array(EncodeItems(n.versions, EncodeVersions))])
  }

  function EncodeServiceData(s: ServiceData): Json
  {
    Object(map["apis" := Array(EncodeItems(s.apis, EncodeApi)),
               "notifications" := EncodeOption(s.notifications, (ns: seq<Notifications>) => Array(EncodeItems(ns, EncodeNotifications))),
               "service" := Str(s.service),
               "protocols" := EncodeStrings(s.protocols)])
  }

  function EncodeServiceList(ss: seq<ServiceData>): Json
  {
    Array(EncodeItems(ss, EncodeServiceData))
  }

  lemma StringsRoundTrip(xs: seq<string>)
    ensures DecodeStrings(EncodeStrings(xs)) == Ok(xs)
  {
    assert EncodeStrings(xs).items == EncodeItems(xs, (s: string) => Str(s));
    DecodeEncodeItems(xs, AsString, (s: string) => Str(s));
  }

  lemma VersionsRoundTrip(v: Versions)
    ensures DecodeVersions(EncodeVersions(v)) == Ok(v)
  {
    var j := EncodeVersions(v);
    assert Get(j, "version") == Some(Str(v.version));
    if v.protocols.Some? { StringsRoundTrip(v.protocols.value); }
    OptionalEncoded(j.fields, "protocols", v.protocols, DecodeStrings, EncodeStrings);
    OptionalEncoded(j.fields, "authLevel", v.authLevel, AsString, (s: string) => Str(s));
  }

  lemma VersionsListRoundTrip(vs: seq<Versions>)
    ensures DecodeVersionsList(Array(EncodeItems(vs, EncodeVersions))) == Ok(vs)
  {
    forall i | 0 <= i < |vs| ensures DecodeVersions(EncodeVersions(vs[i])) == Ok(vs[i]) {
      VersionsRoundTrip(vs[i]);
    }
    DecodeEncodeItems(vs, DecodeVersions, EncodeVersions);
  }

  lemma ApiRoundTrip(a: Api)
    ensures DecodeApi(EncodeApi(a)) == Ok(a)
  {
    var j := EncodeApi(a);
    assert Get(j, "name") == Some(Str(a.name));
    assert Get(j, "versions") == Some(Array(EncodeItems(a.versions, EncodeVersions)));
    VersionsListRoundTrip(a.versions);
  }

  lemma NotificationsRoundTrip(n: Notifications)
    ensures DecodeNotifications(EncodeNotifications(n)) == Ok(n)
  {
    var j := EncodeNotifications(n);
    assert Get(j, "name") == Some(Str(n.name));
    assert Get(j, "versions") == Some(Array(EncodeItems(n.versions, EncodeVersions)));
    VersionsListRoundTrip(n.versions);
  }

  lemma ServiceDataRoundTrip(s: ServiceData)
    ensures DecodeServiceData(EncodeServiceData(s)) == Ok(s)
  {
    var j := EncodeServiceData(s);
    forall i | 0 <= i < |s.apis| ensures DecodeApi(EncodeApi(s.apis[i])) == Ok(s.apis[i]) {
      ApiRoundTrip(s.apis[i]);
    }
    DecodeEncodeItems(s.apis, DecodeApi, EncodeApi);
    assert Get(j, "apis") == Some(Array(EncodeItems(s.apis, EncodeApi)));
    var encNs := (ns: seq<Notifications>) => Array(EncodeItems(ns, EncodeNotifications));
    if s.notifications.Some? {
      var ns := s.notifications.value;
      forall i | 0 <= i < |ns| ensures DecodeNotifications(EncodeNotifications(ns[i])) == Ok(ns[i]) {
        NotificationsRoundTrip(ns[i]);
      }
      DecodeEncodeItems(ns, DecodeNotifications, EncodeNotifications);
      assert DecodeNotificationsList(encNs(ns)) == Ok(ns);
    }
    OptionalEncoded(j.fields, "notifications", s.notifications, DecodeNotificationsList, encNs);
    assert Get(j, "service") == Some(Str(s.service));
    StringsRoundTrip(s.protocols);
    assert Get(j, "protocols") == Some(EncodeStrings(s.protocols));
  }

  /** The discovery records survive the trip from the device's JSON unchanged. */
  lemma ServiceListRoundTrip(ss: seq<ServiceData>)
    ensures DecodeServiceList(EncodeServiceList(ss)) == Ok(ss)
  {
    forall i | 0 <= i < |ss| ensures DecodeServiceData(EncodeServiceData(ss[i])) == Ok(ss[i]) {
      ServiceDataRoundTrip(ss[i]);
    }
    DecodeEncodeItems(ss, DecodeServiceData, EncodeServiceData);
  }

  // ---------------------------------------------------------------------------
  // get_supported_api_info
  // ---------------------------------------------------------------------------

  /**
   * The discovery request: `{}` without a service list, `{"services": list}`
   * with one (an empty list included), as id 5 at the default version,
   * unprotected, expecting `result[0]`.
   */
  function SupportedApiInfoRequest(services: Option<seq<string>>): (r: Request)
    ensures Targets(r, Endpoint, 5, DiscoveryMethod, DefaultVersion)
    ensures !r.isProtected && r.hasResult && r.get == Index(0)
    ensures services.None? ==> SendsObject(r, {})
    ensures services.Some? ==> SendsObject(r, {"services"}) && SendsField(r, "services", FromStrings(services.value))
  {
    var params := map[];
    var params := if services.Some? then params["services" := FromStrings(services.value)] else params;
    Call(Endpoint, Body(5, DiscoveryMethod, None, Some(Object(params))), false, true, None)
  }

  /** An empty discovery answer is an error; any other is returned as it is. */
  function CheckServices(parsed: seq<ServiceData>): (r: Result<seq<ServiceData>>)
    ensures r.Err? <==> parsed == []
    ensures r.Err? ==> r.error == MissingValue("apis")
    ensures r.Ok? ==> r.value == parsed
  {
    if parsed == [] then Err(MissingValue("apis")) else Ok(parsed)
  }

  /**
   * `get_supported_api_info`: dispatch (unwrapped), decode, reject an empty
   * list.
   */
  function GetSupportedApiInfo(cache: ServicesMap, auth: Option<string>, services: Option<seq<string>>, outcome: HttpOutcome): (r: Result<seq<ServiceData>>)
    requires WellDefined(cache, auth, SupportedApiInfoRequest(services), outcome)
    requires MakeRequest(cache, auth, SupportedApiInfoRequest(services), outcome).Ok?
    ensures r.Ok? ==> r.value != []
    ensures r.Ok? ==> DecodeServiceList(Make(cache, auth, SupportedApiInfoRequest(services), outcome)) == r
    ensures DecodeServiceList(Make(cache, auth, SupportedApiInfoRequest(services), outcome)).Err? ==> r.Err?
    ensures DecodeServiceList(Make(cache, auth, SupportedApiInfoRequest(services), outcome)) == Ok([])
            ==> r == Err(MissingValue("apis"))
    ensures var d := DecodeServiceList(Make(cache, auth, SupportedApiInfoRequest(services), outcome));
            d.Ok? && d.value != [] ==> r == d
  {
    var value := Make(cache, auth, SupportedApiInfoRequest(services), outcome);
    var parsed :- DecodeServiceList(value);
    CheckServices(parsed)
  }

  /** The reply a device gives to discovery: the service list as `result[0]`. */
  function DiscoveryReply(ss: seq<ServiceData>): HttpOutcome
  {
    Response(StatusOk, Parsed(ResultReply([EncodeServiceList(ss)])))
  }

  /**
   * Against any cache and credential, a device that answers with a
   * non-empty service list hands that very list to the caller, and one that
   * answers with an empty list makes discovery fail with `MissingValue("apis")`.
   */
  lemma DiscoveryReadsServices(cache: ServicesMap, auth: Option<string>, services: Option<seq<string>>, ss: seq<ServiceData>)
    ensures WellDefined(cache, auth, SupportedApiInfoRequest(services), DiscoveryReply(ss))
    ensures MakeRequest(cache, auth, SupportedApiInfoRequest(services), DiscoveryReply(ss)).Ok?
    ensures GetSupportedApiInfo(cache, auth, services, DiscoveryReply(ss))
            == if ss == [] then Err(MissingValue("apis")) else Ok(ss)
  {
    var req := SupportedApiInfoRequest(services);
    DeviceResultReadBack(req, [EncodeServiceList(ss)]);
    ServiceListRoundTrip(ss);
  }
}
