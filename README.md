# bravia-api in Dafny

A verified model of the core of `bravia-api`, a Rust client for the REST
API of Sony BRAVIA professional displays. The client speaks JSON-RPC over
HTTP: every call POSTs `{"id", "method", "version", "params"}` to
`<address>/sony/<service>`, optionally with the pre-shared key in
`X-Auth-PSK`, and reads `result` or `error` from the answer.

The model covers:

- **the envelope** (`RequestBody`, its builder and the per-call `Request`
  policy: protected, expects a result, which element to extract). The
  builders are classes whose setters update fields in place
  (`envelope.dfy`, `client.dfy`);
- **the client object** `Bravia`: its base URL, stored key and capability
  cache. The cache is filled by discovery (`getSupportedApiInfo`) in
  nested loops, as `create_supported_api_cache` does (`client.dfy`);
- **the dispatcher** `make_request`, as a pure function of the cache, the
  stored key, the request and an abstract HTTP outcome. It covers the
  support check, its bypass for discovery, credential choice, status and
  body classification, and extraction by index or by field name
  (`dispatch.dfy`). `make` unwraps the dispatch, so a dispatch failure is
  a panic. It is modelled as a precondition, and so is the panicking
  `result[0]` of by-name extraction;
- **the error taxonomy** and the `#code: message` rendering of device
  errors (`errors.dfy`);
- **discovery** (`guide`): the service descriptions, their orderings and
  `get_supported_api_info` (`guide.dfy`);
- **the request shaping** of every call in `appControl`, `audio`,
  `avContent`, `system` and `video`: endpoint, id, method, version,
  parameters, protection and extraction rule. It also covers the result
  shaping that `get_current_time`, `get_scheme_list`/`get_source_list`
  and the picture-quality settings do.

JSON values are an abstract datatype (`json.dfy`). Objects are maps, as
serde_json's `Map` is. The HTTP exchange is an input value: a transport
failure, or a status with a parsed or unparsable body.

Where the documentation and the code differ, the model follows the code:

- `Bravia::new` panics, rather than returning an error, when the discovery
  dispatch itself fails. The construction returns an error only for an
  undecodable or empty service list.
- `get_application_status_list` is sent as protected, although its
  documentation gives its authentication level as none.

## Model

| member | source | states |
|---|---|---|
| Errors.DecimalRoundTrip | src/error.rs:21-25 | the decimal rendering of a code is a non-empty digit string that reads back as the code |
| Errors.CodeTextRoundTrip | src/error.rs:21-25 | `#code: message` parses back to the same code and message |
| Errors.LocalFailuresDistinguishable | src/error.rs:51-62 | the capability and credential failures have pairwise different messages, none equal to a device error's |
| Errors.DescribeBraviaError | src/error.rs:49-50 | a device error renders as `Error returned by Bravia: ` followed by its `#code: message` text |
| Json.Get | src/lib.rs:251 | `get_mut(key)`: the field of an object, nothing for a missing key or any other value |
| Json.At | src/lib.rs:254 | `get_mut(index)`: the element of an array, nothing out of bounds or for any other value |
| Envelope.Body | src/lib.rs:54-75 | the version is the given one or `1.0`; params is `[]` when unset and exactly `[p]` when set |
| Envelope.Call | src/lib.rs:98-122 | the protection and result flags are off unless set; the element rule defaults to `Index(0)` |
| Envelope.RequestBodyBuilder.constructor | src/lib.rs:54-63 | every field of a fresh body builder is unset |
| Envelope.RequestBodyBuilder.SetId | src/lib.rs:56-57 | sets the id, changes nothing else |
| Envelope.RequestBodyBuilder.SetMethod | src/lib.rs:58 | sets the method, changes nothing else |
| Envelope.RequestBodyBuilder.SetVersion | src/lib.rs:66-69 | `version(None)` stores `1.0`, `version(Some(v))` stores `v`; nothing else changes |
| Envelope.RequestBodyBuilder.SetParams | src/lib.rs:71-74 | the params become exactly `[value]`, replacing any earlier value |
| Envelope.RequestBodyBuilder.Build | src/lib.rs:54-63 | succeeds iff id and method are set (id checked first); version defaults to `1.0`, params to `[]` |
| Envelope.BuildBody | src/lib.rs:59-74 | the builder chain a call site writes yields `Body(..)`; the version tag is `1.0` iff none or `1.0` was given |
| Dispatch.IsApiSupported | src/lib.rs:201-215 | Ok iff service, API and version are all present; otherwise service-not-found, API-not-found, version-unsupported in that order |
| Dispatch.Credential | src/lib.rs:222-235 | the support check is skipped exactly for `getSupportedApiInfo`; its error comes first; a protected call that passes it fails with `BraviaAuthLevelError` without a stored key and otherwise sends the key unchanged; an unprotected one sends `""` |
| Dispatch.RequestUrl | src/lib.rs:219 | the URL is the base URL followed by the endpoint |
| Dispatch.Outgoing | src/lib.rs:218-244 | a POST goes out iff the local checks pass, with the URL, the chosen key and the body |
| Dispatch.DecodeErrorCode | src/error.rs:11-19 | a device error is read from `{"code", "message"}` or from the sequence form `[code, message]`, exactly when the code is an unsigned number below 2^64 and the message a string; anything else is a deserialisation error |
| Dispatch.ErrorCodeRoundTrip | src/error.rs:11-19 | a device error code reads back from its JSON form |
| Dispatch.Extract | src/lib.rs:252-257 | `Index(i)` gives `result[i]`, `Text(f)` gives `result[0][f]`; when the value is absent the result is `MissingValue("result values")` |
| Dispatch.Classify | src/lib.rs:246-274 | transport failure gives NetworkError; a non-200 status gives BadStatus; a present `result` gives the extraction (or `Null` when no result is expected), whatever `error` holds; `error` alone gives BraviaError of the decoded code, or the decoding error; neither gives InvalidResponse |
| Dispatch.MakeRequest | src/lib.rs:218-275 | a failed local check (support, then `BraviaAuthLevelError`) is the result before any exchange; a request that passes them gets exactly the classification of the outcome, errors included |
| Dispatch.Make | src/lib.rs:124-128 | the unwrapped dispatch: `Null` when no result is expected, else the extracted value |
| Dispatch.NotSentIgnoresOutcome | src/lib.rs:222-235 | a request stopped locally gives the same error whatever the device would answer |
| Dispatch.DiscoveryIgnoresCache | src/lib.rs:222-224 | discovery dispatches the same against any cache |
| Dispatch.CredentialSent | src/lib.rs:227-242 | unprotected calls send an empty key even when one is stored; protected ones send the stored key; the body is sent unchanged |
| Dispatch.DeviceErrorReadBack | src/lib.rs:262-265 | a device error reply comes back as exactly that code and message |
| Dispatch.DeviceResultReadBack | src/lib.rs:251-257 | a by-index request returns the element the device sent at that index |
| Dispatch.ResultBeforeError | src/lib.rs:251-262 | a reply with both `result` and `error` is read as if `error` were absent: the extraction, or `Null` when no result is expected |
| Dispatch.DeviceFieldReadBack | src/lib.rs:255-257 | a by-name request returns the named field of `result[0]` |
| Dispatch.EmptyResultPanics | src/lib.rs:255 | a by-name request answered with an empty `result` reaches the panicking `result[0]` |
| Guide.CompareStringsAntisymmetric | src/guide/mod.rs:26-30 | string comparison reverses when its arguments swap |
| Guide.CompareStringsEqual | src/guide/mod.rs:26-30 | strings compare Equal iff they are equal |
| Guide.CompareStringsTransitive | src/guide/mod.rs:26-30 | string comparison is transitive |
| Guide.VersionsOrderIsTextual | src/guide/mod.rs:14-30 | versions compare by their string alone: `1.10` < `1.2`, and entries that differ only in protocols or auth level compare Equal |
| Guide.MaxVersions | src/guide/mod.rs:48-49 | `iter().max()`: none iff empty; the result is an entry and an upper bound |
| Guide.MaxVersionsIsLast | src/guide/mod.rs:48-49 | among equal maxima the last is returned: every later entry is strictly smaller |
| Guide.CompareApiByMaximum | src/guide/mod.rs:46-52 | APIs compare by greatest version: none below some, antisymmetric, and a is less iff some version of b exceeds all of a's |
| Guide.CompareNotificationsByMaximum | src/guide/mod.rs:68-74 | notifications compare by greatest version: none below some, both empty Equal, antisymmetric, and a is less iff some version of b exceeds all of a's |
| Guide.StringsRoundTrip | src/guide/mod.rs:91 | a string list reads back from its JSON form |
| Guide.VersionsRoundTrip | src/guide/mod.rs:14-24 | a version entry reads back from its JSON form (`authLevel`, optional fields) |
| Guide.VersionsListRoundTrip | src/guide/mod.rs:43 | a version list reads back from its JSON form |
| Guide.ApiRoundTrip | src/guide/mod.rs:39-44 | an API entry reads back from its JSON form |
| Guide.NotificationsRoundTrip | src/guide/mod.rs:61-66 | a notification entry reads back from its JSON form |
| Guide.ServiceDataRoundTrip | src/guide/mod.rs:83-92 | a service description reads back from its JSON form |
| Guide.ServiceListRoundTrip | src/guide/mod.rs:153 | a service list reads back from its JSON form |
| Guide.SupportedApiInfoRequest | src/guide/mod.rs:135-151 | id 5, `getSupportedApiInfo`, `1.0`, endpoint `guide`, unprotected, result at `Index(0)`; params `{}` without a filter, `{"services": list}` with one (even an empty list) |
| Guide.CheckServices | src/guide/mod.rs:154-158 | an empty list fails with `MissingValue("apis")`; any other is returned unchanged |
| Guide.GetSupportedApiInfo | src/guide/mod.rs:131-159 | the unwrapped dispatch is decoded as a service list: an undecodable answer fails, an empty list fails with `MissingValue("apis")`, a non-empty list is returned as decoded |
| Guide.DiscoveryReadsServices | src/guide/mod.rs:131-159 | a device answering with a service list hands back that list, or `MissingValue("apis")` when it is empty |
| Client.VersionStrings | src/lib.rs:191-192 | the version strings of an API, one per entry, in order |
| Client.ApisOfDomain | src/lib.rs:190-194 | an API name is in a service's map iff some entry carries it |
| Client.ApisOfLast | src/lib.rs:190-194 | an API name maps to the version strings of its last entry |
| Client.InsertServicesDomain | src/lib.rs:188-196 | a service is cached iff it was before or some entry names it |
| Client.InsertServicesLast | src/lib.rs:188-196 | a service maps to the API map of its last entry (later duplicates overwrite) |
| Client.InsertServicesKeeps | src/lib.rs:188-196 | a service no entry names keeps its cached map |
| Client.DiscoveredSupport | src/lib.rs:186-215 | after discovery the support check passes exactly for the versions the device advertised |
| Client.UndiscoveredService | src/lib.rs:186-215 | a service not advertised is refused with service-not-found |
| Client.DiscoveryDispatchesIff | src/lib.rs:124-128 | `new` avoids the unwrap panic iff discovery answers 200 with a parsed body whose `result` has a first element |
| Client.BaseUrl | src/lib.rs:145 | the base URL is the address followed by `/sony/` |
| Client.Bravia.Init | src/lib.rs:144-148 | the client before discovery: base URL, stored key, empty cache |
| Client.Bravia.CreateSupportedApiCache | src/lib.rs:186-198 | on a decoded non-empty discovery the cache becomes the services inserted in order; otherwise the error is returned and the cache is unchanged |
| Client.Bravia.New | src/lib.rs:143-151 | a fresh client whose cache is exactly what discovery reported, or discovery's error |
| Client.RequestBuilder.constructor | src/lib.rs:98-111 | every field of a fresh request builder is unset |
| Client.RequestBuilder.SetEndpoint | src/lib.rs:101 | sets the endpoint, changes nothing else |
| Client.RequestBuilder.SetBody | src/lib.rs:102 | sets the body, changes nothing else |
| Client.RequestBuilder.Protect | src/lib.rs:114-117 | `is_protected()` switches protection on, changes nothing else |
| Client.RequestBuilder.ExpectResult | src/lib.rs:119-122 | `has_result()` switches the result flag on, changes nothing else |
| Client.RequestBuilder.SetGet | src/lib.rs:109-110 | sets the element rule, changes nothing else |
| Client.RequestBuilder.Build | src/lib.rs:98-111 | succeeds iff endpoint and body are set (endpoint checked first); the built request carries the stored endpoint and body, flags default off, rule `Index(0)` |
| Client.RequestBuilder.Make | src/lib.rs:124-128 | a build failure is returned; otherwise the dispatch, which must succeed, is the result |
| AppControl.ApplicationListRequest | src/app_control/mod.rs:74-87 | id 60, `getApplicationList`, `1.0`, no params, protected, result at `Index(0)` |
| AppControl.ApplicationStatusListRequest | src/app_control/mod.rs:93-106 | id 55, `getApplicationStatusList`, protected although documented as unauthenticated |
| AppControl.TextFormRequest | src/app_control/mod.rs:117-138 | version `1.1`; `encKey` sent iff given; protected; extracts `result[0]["text"]` |
| AppControl.WebAppStatusRequest | src/app_control/mod.rs:144-157 | id 1, `getWebAppStatus`, protected, result expected |
| AppControl.ActiveAppRequest | src/app_control/mod.rs:180-196 | id 601, `{"uri": uri}`, protected, no result |
| AppControl.TextFormParam | src/app_control/mod.rs:215-228 | at `1.1` an object with `text` and, when given, `encKey`; otherwise the bare text |
| AppControl.SetTextFormRequest | src/app_control/mod.rs:209-243 | id 601, the caller's version or `1.0`, the version-dependent parameter, protected, no result |
| AppControl.SetTextFormSends | src/app_control/mod.rs:215-233 | the text is bare iff the version is not `1.1`; the key is sent iff the version is `1.1` and a key is given; the tag is `1.0` iff none or `1.0` was given |
| AppControl.TerminateAppsRequest | src/app_control/mod.rs:249-261 | id 55, no params, `1.0`, protected, no result |
| Audio.DecodeSetting | src/audio/mod.rs:13-30 | a setting needs a target and a value, which may arrive as `currentValue`; both names together are refused |
| Audio.SettingRoundTrip | src/audio/mod.rs:13-69 | a setting reads back from its own form and from the `currentValue` form |
| Audio.SettingsRoundTrip | src/audio/mod.rs:280-319 | a settings list reads back from its JSON form |
| Audio.SoundSettingsRequest | src/audio/mod.rs:105-125 | id 73, version `1.1`, `target` always sent (`null` for none), unprotected, result expected |
| Audio.SpeakerSettingsRequest | src/audio/mod.rs:135-154 | id 67, `1.0`, `target` always sent, unprotected, result expected |
| Audio.VolumeInformationRequest | src/audio/mod.rs:160-172 | id 33, no params, unprotected, result expected |
| Audio.AudioMuteRequest | src/audio/mod.rs:181-198 | id 601, `{"status": bool}`, protected, and a result is expected |
| Audio.AudioVolumeRequest | src/audio/mod.rs:245-274 | id 98, the caller's version or `1.0`, `target` (or `null`) and `volume` always, protected, no result |
| Audio.AudioVolumeUi | src/audio/mod.rs:252-259 | `ui` is sent iff the version is exactly `1.2` and `ui` is given; otherwise the keys are exactly `target` and `volume` |
| Audio.SoundSettingsUpdate | src/audio/mod.rs:280-297 | id 5, version `1.1`, the list under `settings`, protected, no result |
| Audio.SpeakerSettingsUpdate | src/audio/mod.rs:303-319 | id 62, `1.0`, the list under `settings`, protected, no result |
| Audio.SoundSettingsSent | src/audio/mod.rs:280-283 | the list sent is exactly the list the receiver reads back |
| AvContent.ContentCountRequest | src/av_content/mod.rs:128-163 | id 11, the caller's version or `1.0`, `source` always, `type` iff given, protected, extracts `count` |
| AvContent.ContentCountKeys | src/av_content/mod.rs:135-146 | the exact key set; `target` is sent iff the version is `1.1` and a target is given, and then unchanged |
| AvContent.ContentListRequest | src/av_content/mod.rs:196-227 | id 88, version `1.5`, each of `uri`/`stIdx`/`cnt` iff given, protected, result expected |
| AvContent.ExternalInputStatusRequest | src/av_content/mod.rs:236-252 | id 105, the caller's version or `1.0`, no params, unprotected, result expected |
| AvContent.SchemeListRequest | src/av_content/mod.rs:258-268 | id 1, `getSchemeList`, no params, unprotected, result expected |
| AvContent.SourceListRequest | src/av_content/mod.rs:285-299 | id 1, `{"scheme": scheme}`, unprotected, result expected |
| AvContent.PlayingContentInfoRequest | src/av_content/mod.rs:313-326 | id 103, no params, protected, result expected |
| AvContent.PlayContentRequest | src/av_content/mod.rs:336-352 | id 101, `{"uri": uri}`, protected, no result |
| AvContent.DecodeStringMap | src/av_content/mod.rs:270 | a string map is an object whose every value is a string, with the same keys |
| AvContent.IntoValues | src/av_content/mod.rs:273 | a map's values joined in one of its iteration orders |
| AvContent.SingleEntryJoined | src/av_content/mod.rs:273 | a one-entry map joins to its value, whatever the order |
| AvContent.EmptyJoined | src/av_content/mod.rs:273 | an empty map joins to the empty string |
| AvContent.Flatten | src/av_content/mod.rs:271-275 | one string per map, same length and order, each the join of that map's values |
| AvContent.StringMapList | src/av_content/mod.rs:270-275 | fails with a deserialisation error iff the answer is not a list of string maps; otherwise flattens it |
| AvContent.SingleEntryMapsFlatten | src/av_content/mod.rs:270-275 | one-entry maps flatten to exactly their values, in order |
| AvContent.GetSchemeList | src/av_content/mod.rs:258-276 | the dispatched answer, decoded and flattened |
| AvContent.GetSourceList | src/av_content/mod.rs:285-307 | the dispatched answer, decoded and flattened |
| SystemService.DecodeTime | src/system/mod.rs:9-20 | a time needs `dateTime`; missing or `null` offsets are none, and a string `dateTime` with no offsets decodes |
| SystemService.TimeRoundTrip | src/system/mod.rs:9-20 | a time reads back from its JSON form |
| SystemService.GetCurrentTime | src/system/mod.rs:172-196 | the unwrapped dispatch is shaped by version: at no version or `1.0` Ok iff the answer is a string, with both offsets none; otherwise the answer decoded as a whole `Time`; every failure is a deserialisation error (read-back for a supporting device in CurrentTimeReadBack) |
| SystemService.ShapeCurrentTime | src/system/mod.rs:185-195 | at no version or `1.0` the answer must be a string and both offsets are none; otherwise it is decoded as a whole `Time` |
| SystemService.CurrentTimeRequest | src/system/mod.rs:172-183 | id 51, the caller's version or `1.0`, no params, unprotected, result expected |
| SystemService.CurrentTimeReadBack | src/system/mod.rs:172-196 | a supporting device's time comes back: offsets dropped at no version or `1.0`, whole at any other |
| SystemService.CurrentTimeObjectAtBareVersion | src/system/mod.rs:185-186 | at no version or `1.0` an object answer fails to decode |
| SystemService.DecodeLedIndicatorStatus | src/system/mod.rs:46-62 | an LED status needs a `mode`; a missing or `null` `status` is none, and a string `mode` without a status decodes |
| SystemService.LedIndicatorStatusRoundTrip | src/system/mod.rs:46-62 | an LED status reads back from its JSON form |
| SystemService.InterfaceInformationRequest | src/system/mod.rs:202-214 | id 33, unprotected, result expected |
| SystemService.LedIndicatorStatusRequest | src/system/mod.rs:220-233 | id 45, protected, result expected |
| SystemService.NetworkSettingsRequest | src/system/mod.rs:243-265 | id 2, `netif` iff given (else `{}`), protected, result expected |
| SystemService.PowerSavingModeRequest | src/system/mod.rs:278-291 | id 51, unprotected, extracts `result[0]["mode"]` |
| SystemService.PowerStatusRequest | src/system/mod.rs:305-318 | id 50, unprotected, extracts `result[0]["status"]` |
| SystemService.RemoteControllerInfoRequest | src/system/mod.rs:324-337 | id 54, unprotected, extracts `result[1]` |
| SystemService.RemoteDeviceSettingsRequest | src/system/mod.rs:349-370 | id 44, `target` iff given (else `{}`), unprotected, result expected |
| SystemService.SystemInformationRequest | src/system/mod.rs:376-389 | id 33, protected, result expected |
| SystemService.SystemSupportedFunctionRequest | src/system/mod.rs:395-407 | id 55, unprotected, result expected |
| SystemService.WolModeRequest | src/system/mod.rs:414-428 | id 50, protected, extracts `result[0]["enabled"]` |
| SystemService.ByNameGettersReadBack | src/system/mod.rs:278-428 | the power-saving, power-status and wake-on-LAN getters return the named field of the first element |
| SystemService.RemoteControllerInfoReadsSecond | src/system/mod.rs:333 | the remote-controller getter returns the second element, not the first |
| SystemService.RebootRequest | src/system/mod.rs:434-446 | id 10, no params, protected, no result |
| SystemService.LedIndicatorStatusUpdate | src/system/mod.rs:458-472 | id 53, version `1.1`, the status object itself as the parameter (it reads back), protected, no result |
| SystemService.LanguageUpdate | src/system/mod.rs:487-502 | id 55, `{"language": ..}`, protected, no result |
| SystemService.PowerSavingModeUpdate | src/system/mod.rs:516-531 | id 52, `{"mode": ..}`, protected, no result |
| SystemService.PowerStatusUpdate | src/system/mod.rs:540-555 | id 55, `{"status": bool}`, protected, no result |
| SystemService.WolModeUpdate | src/system/mod.rs:565-580 | id 55, `{"enabled": bool}`, protected, no result |
| SystemService.SetterIgnoresResult | src/lib.rs:258-260 | a call expecting no result succeeds with nothing, whatever `result` holds |
| Video.DecodePictureQualitySetting | src/video/mod.rs:40-51 | target and current value are required; `isAvailable` is true when missing and must be a boolean when present |
| Video.PictureQualitySettingRoundTrip | src/video/mod.rs:40-51 | a reported setting reads back, with or without an explicit availability for an available one |
| Video.PictureQualitySettingsRequest | src/video/mod.rs:97-118 | id 52, `1.0`, `target` iff given (else `{}`), unprotected, result at `Index(0)` |
| Video.PictureQualitySettingsUpdate | src/video/mod.rs:124-143 | id 12, the changes in order under `settings`, each with `target` and `value` (or `null`), protected, no result |

## Left out

- HTTP transport (reqwest client, headers, JSON body parsing), async execution and tokio: the exchange is an input value, and an unparsable body is a `NetworkError` as `resp.json()` makes it.
- Typed deserialisation of answers whose shape the client does not inspect (applications, volume information, content lists, network settings and the like): `from_value` is an opaque step, and only the shapes the client reasons about are decoded.
- `Candidate` entries of picture-quality settings: their fields are floating point, so they are kept as raw JSON.
- The iteration order of a `HashMap` in `get_scheme_list`/`get_source_list`: it is unspecified, so the model allows any order and proves only what holds for all of them.
- The encryption and video-screen services: each sends one fixed request and adds nothing to dispatch.
- Audio.DecodeSetting: reads the object form only; the sequence form `[field, ...]` that serde also accepts for a struct is refused (the device sends objects; only Dispatch.DecodeErrorCode models the sequence form).
- SystemService.DecodeTime: reads the object form only; the sequence form `[field, ...]` that serde also accepts for a struct is refused (the device sends objects; only Dispatch.DecodeErrorCode models the sequence form).
- SystemService.DecodeLedIndicatorStatus: reads the object form only; the sequence form `[field, ...]` that serde also accepts for a struct is refused (the device sends objects; only Dispatch.DecodeErrorCode models the sequence form).
- Video.DecodePictureQualitySetting: reads the object form only; the sequence form `[field, ...]` that serde also accepts for a struct is refused (the device sends objects; only Dispatch.DecodeErrorCode models the sequence form).
- Guide.DecodeVersions: reads the object form only; the sequence form `[field, ...]` that serde also accepts for a struct is refused (the device sends objects; only Dispatch.DecodeErrorCode models the sequence form).
- Guide.DecodeApi: reads the object form only; the sequence form `[field, ...]` that serde also accepts for a struct is refused (the device sends objects; only Dispatch.DecodeErrorCode models the sequence form).
- Guide.DecodeNotifications: reads the object form only; the sequence form `[field, ...]` that serde also accepts for a struct is refused (the device sends objects; only Dispatch.DecodeErrorCode models the sequence form).
- Guide.DecodeServiceData: reads the object form only; the sequence form `[field, ...]` that serde also accepts for a struct is refused (the device sends objects; only Dispatch.DecodeErrorCode models the sequence form).
- The text of transport and deserialisation errors: their causes are strings or a payload-free variant.
- BadStatus renders only the status number, without the reason phrase reqwest appends.
- The builders' `FieldInitialization` error names the missing field; the wrapped derive_builder error value is not modelled further.
