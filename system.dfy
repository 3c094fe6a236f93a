/**
 * The system service (src/system/mod.rs): the requests its methods send,
 * the version-dependent reading of the current time, and the LED indicator
 * status it sends as a parameter.
 */
module SystemService {

  import opened Wrappers
  import opened Errors
  import opened Json
  import opened Envelope
  import opened Dispatch

  const Endpoint: string := "system"

  /** The fixed version of `setLEDIndicatorStatus`. */
  const LedIndicatorVersion: string := "1.1"

  // ---------------------------------------------------------------------------
  // The current time
  // ---------------------------------------------------------------------------

  /** `Time`: the date and time, with the offsets newer versions add. */
  datatype Time = Time(dateTime: string, timeZoneOffsetMinute: Option<nat>, dstOffsetMinute: Option<nat>)

  function DecodeOffset(j: Json): Result<nat>
  {
    AsUnsigned(j, UsizeLimit)
  }

  function EncodeOffset(n: nat): Json
  {
    Number(n)
  }

  /** `Time` as serde reads it (`dateTime`, `timeZoneOffsetMinute`, `dstOffsetMinute`; missing or null offsets are none). */
  function DecodeTime(j: Json): (r: Result<Time>)
    ensures r.Ok? ==> Get(j, "dateTime") == Some(Str(r.value.dateTime))
    ensures Get(j, "dateTime").None? ==> r.Err?
    ensures r.Ok? && (Get(j, "timeZoneOffsetMinute").None? || Get(j, "timeZoneOffsetMinute") == Some(Null))
            ==> r.value.timeZoneOffsetMinute == None
    ensures r.Ok? && (Get(j, "dstOffsetMinute").None? || Get(j, "dstOffsetMinute") == Some(Null))
            ==> r.value.dstOffsetMinute == None
    ensures Get(j, "dateTime").Some? && Get(j, "dateTime").value.Str?
            && (Get(j, "timeZoneOffsetMinute").None? || Get(j, "timeZoneOffsetMinute") == Some(Null))
            && (Get(j, "dstOffsetMinute").None? || Get(j, "dstOffsetMinute") == Some(Null))
            ==> r == Ok(Time(Get(j, "dateTime").value.s, None, None))
  {
    var dateTime :- Required(j, "dateTime", AsString);
    var zone :- Optional(j, "timeZoneOffsetMinute", DecodeOffset);
    var dst :- Optional(j, "dstOffsetMinute", DecodeOffset);
    Ok(Time(dateTime, zone, dst))
  }

  /** `Time` as serde writes it. */
  function EncodeTime(t: Time): Json
  {
    Object(map["dateTime" := Str(t.dateTime),
               "timeZoneOffsetMinute" := EncodeOption(t.timeZoneOffsetMinute, EncodeOffset),
               "dstOffsetMinute" := EncodeOption(t.dstOffsetMinute, EncodeOffset)])
  }

  /** A time whose offsets fit in a `usize` reads back from its serialised form. */
  lemma TimeRoundTrip(t: Time)
    requires t.timeZoneOffsetMinute.Some? ==> t.timeZoneOffsetMinute.value < UsizeLimit
    requires t.dstOffsetMinute.Some? ==> t.dstOffsetMinute.value < UsizeLimit
    ensures DecodeTime(EncodeTime(t)) == Ok(t)
  {
    var e := EncodeTime(t);
    OptionalEncoded(e.fields, "timeZoneOffsetMinute", t.timeZoneOffsetMinute, DecodeOffset, EncodeOffset);
    OptionalEncoded(e.fields, "dstOffsetMinute", t.dstOffsetMinute, DecodeOffset, EncodeOffset);
  }

  /** Versions at which the device answers with a bare date-time string. */
  predicate BareTimeVersion(version: Option<string>)
  {
    version.None? || version == Some(DefaultVersion)
  }

  /**
   * The result shaping of `get_current_time`: at no version or 1.0 the
   * answer is a bare string and both offsets are none; at any other version
   * it is a whole `Time` object.
   */
  function ShapeCurrentTime(version: Option<string>, answer: Json): (r: Result<Time>)
    ensures BareTimeVersion(version) ==> (r.Ok? <==> answer.Str?)
    ensures BareTimeVersion(version) && r.Ok? ==> r.value == Time(answer.s, None, None)
    ensures !BareTimeVersion(version) ==> r == DecodeTime(answer)
    ensures r.Err? ==> r.error == DeserializeError
  {
    if version.None? || version == Some(DefaultVersion) then
      var dateTime :- AsString(answer);
      Ok(Time(dateTime, None, None))
    else
      var time :- DecodeTime(answer);
      Ok(time)
  }

  /** `get_current_time`: the caller's version, no parameters, unprotected. */
  function CurrentTimeRequest(version: Option<string>): (r: Request)
    ensures Targets(r, Endpoint, 51, "getCurrentTime", version.GetOr(DefaultVersion)) && r.body.params == []
    ensures !r.isProtected && r.hasResult && r.get == Index(0)
  {
    Call(Endpoint, Body(51, "getCurrentTime", version, None), false, true, None)
  }

  /** `get_current_time` against a client's cache and key: dispatch (unwrapped), then shape. */
  function GetCurrentTime(cache: ServicesMap, auth: Option<string>, version: Option<string>, outcome: HttpOutcome): (r: Result<Time>)
    requires WellDefined(cache, auth, CurrentTimeRequest(version), outcome)
    requires MakeRequest(cache, auth, CurrentTimeRequest(version), outcome).Ok?
    ensures var answer := Make(cache, auth, CurrentTimeRequest(version), outcome);
            BareTimeVersion(version) ==> (r.Ok? <==> answer.Str?) && (r.Ok? ==> r.value == Time(answer.s, None, None))
    ensures !BareTimeVersion(version) ==> r == DecodeTime(Make(cache, auth, CurrentTimeRequest(version), outcome))
    ensures r.Err? ==> r.error == DeserializeError
  {
    ShapeCurrentTime(version, Make(cache, auth, CurrentTimeRequest(version), outcome))
  }

  /**
   * A device supporting the requested version and answering with a time
   * hands that time back: as a bare string at no version or 1.0 (offsets
   * dropped), as the whole object at any other version.
   */
  lemma CurrentTimeReadBack(cache: ServicesMap, auth: Option<string>, version: Option<string>, t: Time)
    requires IsApiSupported(cache, Endpoint, "getCurrentTime", version.GetOr(DefaultVersion)).Ok?
    requires t.timeZoneOffsetMinute.Some? ==> t.timeZoneOffsetMinute.value < UsizeLimit
    requires t.dstOffsetMinute.Some? ==> t.dstOffsetMinute.value < UsizeLimit
    ensures var answer := if BareTimeVersion(version) then Str(t.dateTime) else EncodeTime(t);
            var outcome := Response(StatusOk, Parsed(ResultReply([answer])));
            && WellDefined(cache, auth, CurrentTimeRequest(version), outcome)
            && MakeRequest(cache, auth, CurrentTimeRequest(version), outcome).Ok?
            && GetCurrentTime(cache, auth, version, outcome)
               == Ok(if BareTimeVersion(version) then Time(t.dateTime, None, None) else t)
  {
    var answer := if BareTimeVersion(version) then Str(t.dateTime) else EncodeTime(t);
    DeviceResultReadBack(CurrentTimeRequest(version), [answer]);
    if !BareTimeVersion(version) {
      TimeRoundTrip(t);
    }
  }

  /** At no version or 1.0 an object answer is not a date-time string: the call fails. */
  lemma CurrentTimeObjectAtBareVersion(version: Option<string>, t: Time)
    requires BareTimeVersion(version)
    ensures ShapeCurrentTime(version, EncodeTime(t)) == Err(DeserializeError)
  {
  }

  // ---------------------------------------------------------------------------
  // LED indicator status
  // ---------------------------------------------------------------------------

  /** `LEDIndicatorStatus`: a mode and an optional on/off status. */
  datatype LedIndicatorStatus = LedIndicatorStatus(mode: string, status: Option<string>)

  /** The serialised form: `{"mode": .., "status": .. or null}`. */
  function EncodeLedIndicatorStatus(s: LedIndicatorStatus): Json
  {
    Object(map["mode" := Str(s.mode), "status" := FromOptString(s.status)])
  }

  function DecodeLedIndicatorStatus(j: Json): (r: Result<LedIndicatorStatus>)
    ensures r.Ok? ==> Get(j, "mode") == Some(Str(r.value.mode))
    ensures r.Ok? && (Get(j, "status").None? || Get(j, "status") == Some(Null)) ==> r.value.status == None
    ensures Get(j, "mode").Some? && Get(j, "mode").value.Str?
            && (Get(j, "status").None? || Get(j, "status") == Some(Null))
            ==> r == Ok(LedIndicatorStatus(Get(j, "mode").value.s, None))
  {
    var mode :- Required(j, "mode", AsString);
    var status :- Optional(j, "status", AsString);
    Ok(LedIndicatorStatus(mode, status))
  }

  /** The status the client sends reads back as itself. */
  lemma LedIndicatorStatusRoundTrip(s: LedIndicatorStatus)
    ensures DecodeLedIndicatorStatus(EncodeLedIndicatorStatus(s)) == Ok(s)
  {
    var e := EncodeLedIndicatorStatus(s);
    assert FromOptString(s.status) == EncodeOption(s.status, (x: string) => Str(x));
    OptionalEncoded(e.fields, "status", s.status, AsString, (x: string) => Str(x));
  }

  // ---------------------------------------------------------------------------
  // Getters
  // ---------------------------------------------------------------------------

  /** `get_interface_information`. */
  function InterfaceInformationRequest(): (r: Request)
    ensures Targets(r, Endpoint, 33, "getInterfaceInformation", DefaultVersion) && r.body.params == []
    ensures !r.isProtected && r.hasResult && r.get == Index(0)
  {
    Call(Endpoint, Body(33, "getInterfaceInformation", None, None), false, true, None)
  }

  /** `get_led_indicator_status`. */
  function LedIndicatorStatusRequest(): (r: Request)
    ensures Targets(r, Endpoint, 45, "getLEDIndicatorStatus", DefaultVersion) && r.body.params == []
    ensures r.isProtected && r.hasResult && r.get == Index(0)
  {
    Call(Endpoint, Body(45, "getLEDIndicatorStatus", None, None), true, true, None)
  }

  /** `get_network_settings`: `netif` only when given, otherwise `{}`. */
  function NetworkSettingsRequest(netif: Option<string>): (r: Request)
    ensures Targets(r, Endpoint, 2, "getNetworkSettings", DefaultVersion)
    ensures SendsObject(r, if netif.Some? then {"netif"} else {})
    ensures SentString(r, "netif") == netif
    ensures r.isProtected && r.hasResult && r.get == Index(0)
  {
    var params := map[];
    var params := if netif.Some? then params["netif" := Str(netif.value)] else params;
    Call(Endpoint, Body(2, "getNetworkSettings", None, Some(Object(params))), true, true, None)
  }

  /** `get_power_saving_mode`: the answer is `result[0]["mode"]`. */
  function PowerSavingModeRequest(): (r: Request)
    ensures Targets(r, Endpoint, 51, "getPowerSavingMode", DefaultVersion) && r.body.params == []
    ensures !r.isProtected && r.hasResult && r.get == Text("mode")
  {
    Call(Endpoint, Body(51, "getPowerSavingMode", None, None), false, true, Some(Text("mode")))
  }

  /** `get_power_status`: the answer is `result[0]["status"]`. */
  function PowerStatusRequest(): (r: Request)
    ensures Targets(r, Endpoint, 50, "getPowerStatus", DefaultVersion) && r.body.params == []
    ensures !r.isProtected && r.hasResult && r.get == Text("status")
  {
    Call(Endpoint, Body(50, "getPowerStatus", None, None), false, true, Some(Text("status")))
  }

  /** `get_remote_controller_info`: the answer is the second element of `result`. */
  function RemoteControllerInfoRequest(): (r: Request)
    ensures Targets(r, Endpoint, 54, "getRemoteControllerInfo", DefaultVersion) && r.body.params == []
    ensures !r.isProtected && r.hasResult && r.get == Index(1)
  {
    Call(Endpoint, Body(54, "getRemoteControllerInfo", None, None), false, true, Some(Index(1)))
  }

  /** `get_remote_device_settings`: `target` only when given, otherwise `{}`. */
  function RemoteDeviceSettingsRequest(target: Option<string>): (r: Request)
    ensures Targets(r, Endpoint, 44, "getRemoteDeviceSettings", DefaultVersion)
    ensures SendsObject(r, if target.Some? then {"target"} else {})
    ensures SentString(r, "target") == target
    ensures !r.isProtected && r.hasResult && r.get == Index(0)
  {
    var params := map[];
    var params := if target.Some? then params["target" := Str(target.value)] else params;
    Call(Endpoint, Body(44, "getRemoteDeviceSettings", None, Some(Object(params))), false, true, None)
  }

  /** `get_system_information`. */
  function SystemInformationRequest(): (r: Request)
    ensures Targets(r, Endpoint, 33, "getSystemInformation", DefaultVersion) && r.body.params == []
    ensures r.isProtected && r.hasResult && r.get == Index(0)
  {
    Call(Endpoint, Body(33, "getSystemInformation", None, None), true, true, None)
  }

  /** `get_system_supported_function`. */
  function SystemSupportedFunctionRequest(): (r: Request)
    ensures Targets(r, Endpoint, 55, "getSystemSupportedFunction", DefaultVersion) && r.body.params == []
    ensures !r.isProtected && r.hasResult && r.get == Index(0)
  {
    Call(Endpoint, Body(55, "getSystemSupportedFunction", None, None), false, true, None)
  }

  /** `get_wol_mode`: the answer is `result[0]["enabled"]`. */
  function WolModeRequest(): (r: Request)
    ensures Targets(r, Endpoint, 50, "getWolMode", DefaultVersion) && r.body.params == []
    ensures r.isProtected && r.hasResult && r.get == Text("enabled")
  {
    Call(Endpoint, Body(50, "getWolMode", None, None), true, true, Some(Text("enabled")))
  }

  /**
   * The by-name getters hand back exactly the named field of the first
   * element the device sends (`{"status": "active"}` gives `"active"`).
   */
  lemma ByNameGettersReadBack(v: Json, rest: seq<Json>)
    ensures Classify(PowerSavingModeRequest(), Response(StatusOk, Parsed(ResultReply([Object(map["mode" := v])] + rest)))) == Ok(v)
    ensures Classify(PowerStatusRequest(), Response(StatusOk, Parsed(ResultReply([Object(map["status" := v])] + rest)))) == Ok(v)
    ensures Classify(WolModeRequest(), Response(StatusOk, Parsed(ResultReply([Object(map["enabled" := v])] + rest)))) == Ok(v)
  {
    DeviceFieldReadBack(PowerSavingModeRequest(), v, rest);
    DeviceFieldReadBack(PowerStatusRequest(), v, rest);
    DeviceFieldReadBack(WolModeRequest(), v, rest);
  }

  /** `get_remote_controller_info` skips the first element and hands back the second. */
  lemma RemoteControllerInfoReadsSecond(first: Json, second: Json, rest: seq<Json>)
    ensures Classify(RemoteControllerInfoRequest(), Response(StatusOk, Parsed(ResultReply([first, second] + rest)))) == Ok(second)
  {
    DeviceResultReadBack(RemoteControllerInfoRequest(), [first, second] + rest);
  }

  // ---------------------------------------------------------------------------
  // Setters: all protected, none expects a result
  // ---------------------------------------------------------------------------

  /** `request_reboot`: no parameters at all. */
  function RebootRequest(): (r: Request)
    ensures Targets(r, Endpoint, 10, "requestReboot", DefaultVersion) && r.body.params == []
    ensures r.isProtected && !r.hasResult
  {
    Call(Endpoint, Body(10, "requestReboot", None, None), true, false, None)
  }

  /** `set_led_indicator_status`: the status object itself is the parameter, version 1.1. */
  function LedIndicatorStatusUpdate(status: LedIndicatorStatus): (r: Request)
    ensures Targets(r, Endpoint, 53, "setLEDIndicatorStatus", LedIndicatorVersion)
    ensures SendsObject(r, {"mode", "status"})
    ensures DecodeLedIndicatorStatus(Param(r).value) == Ok(status)
    ensures r.isProtected && !r.hasResult
  {
    LedIndicatorStatusRoundTrip(status);
    Call(Endpoint, Body(53, "setLEDIndicatorStatus", Some(LedIndicatorVersion), Some(EncodeLedIndicatorStatus(status))), true, false, None)
  }

  /** `set_language`: `{"language": language}`. */
  function LanguageUpdate(language: string): (r: Request)
    ensures Targets(r, Endpoint, 55, "setLanguage", DefaultVersion)
    ensures SendsObject(r, {"language"}) && SentString(r, "language") == Some(language)
    ensures r.isProtected && !r.hasResult
  {
    var params := map["language" := Str(language)];
    Call(Endpoint, Body(55, "setLanguage", None, Some(Object(params))), true, false, None)
  }

  /** `set_power_saving_mode`: `{"mode": mode}`. */
  function PowerSavingModeUpdate(mode: string): (r: Request)
    ensures Targets(r, Endpoint, 52, "setPowerSavingMode", DefaultVersion)
    ensures SendsObject(r, {"mode"}) && SentString(r, "mode") == Some(mode)
    ensures r.isProtected && !r.hasResult
  {
    var params := map["mode" := Str(mode)];
    Call(Endpoint, Body(52, "setPowerSavingMode", None, Some(Object(params))), true, false, None)
  }

  /** `set_power_status`: `{"status": status}`. */
  function PowerStatusUpdate(status: bool): (r: Request)
    ensures Targets(r, Endpoint, 55, "setPowerStatus", DefaultVersion)
    ensures SendsObject(r, {"status"}) && SendsField(r, "status", Bool(status))
    ensures r.isProtected && !r.hasResult
  {
    var params := map["status" := Bool(status)];
    Call(Endpoint, Body(55, "setPowerStatus", None, Some(Object(params))), true, false, None)
  }

  /** `set_wol_mode`: `{"enabled": enabled}`. */
  function WolModeUpdate(enabled: bool): (r: Request)
    ensures Targets(r, Endpoint, 55, "setWolMode", DefaultVersion)
    ensures SendsObject(r, {"enabled"}) && SendsField(r, "enabled", Bool(enabled))
    ensures r.isProtected && !r.hasResult
  {
    var params := map["enabled" := Bool(enabled)];
    Call(Endpoint, Body(55, "setWolMode", None, Some(Object(params))), true, false, None)
  }

  /**
   * A setter expects no result: once it is sent, any answer carrying
   * `result` is a success with nothing to return, whatever `result` holds.
   */
  lemma SetterIgnoresResult(req: Request, result: Json)
    requires !req.hasResult
    ensures Classify(req, Response(StatusOk, Parsed(Object(map["result" := result])))) == Ok(Null)
  {
    assert Get(Object(map["result" := result]), "result") == Some(result);
  }
}
