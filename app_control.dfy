/**
 * The appControl service (src/app_control/mod.rs): the requests its
 * methods send. Every one of them is sent as protected.
 */
module AppControl {

  import opened Wrappers
  import opened Json
  import opened Envelope

  const Endpoint: string := "appControl"

  /** The version whose `setTextForm` takes an object (with an optional encryption key). */
  const TextFormObjectVersion: string := "1.1"

  /** `get_application_list`. */
  function ApplicationListRequest(): (r: Request)
    ensures Targets(r, Endpoint, 60, "getApplicationList", DefaultVersion) && r.body.params == []
    ensures r.isProtected && r.hasResult && r.get == Index(0)
  {
    Call(Endpoint, Body(60, "getApplicationList", None, None), true, true, None)
  }

  /** `get_application_status_list`: protected although documented as needing no authentication. */
  function ApplicationStatusListRequest(): (r: Request)
    ensures Targets(r, Endpoint, 55, "getApplicationStatusList", DefaultVersion) && r.body.params == []
    ensures r.isProtected && r.hasResult && r.get == Index(0)
  {
    Call(Endpoint, Body(55, "getApplicationStatusList", None, None), true, true, None)
  }

  /** `get_text_form`: always version 1.1; `encKey` only when given; the answer is `result[0]["text"]`. */
  function TextFormRequest(encKey: Option<string>): (r: Request)
    ensures Targets(r, Endpoint, 60, "getTextForm", TextFormObjectVersion)
    ensures SendsObject(r, if encKey.Some? then {"encKey"} else {})
    ensures SentString(r, "encKey") == encKey
    ensures r.isProtected && r.hasResult && r.get == Text("text")
  {
    var params := map[];
    var params := if encKey.Some? then params["encKey" := Str(encKey.value)] else params;
    Call(Endpoint, Body(60, "getTextForm", Some(TextFormObjectVersion), Some(Object(params))), true, true, Some(Text("text")))
  }

  /** `get_web_app_status`. */
  function WebAppStatusRequest(): (r: Request)
    ensures Targets(r, Endpoint, 1, "getWebAppStatus", DefaultVersion) && r.body.params == []
    ensures r.isProtected && r.hasResult && r.get == Index(0)
  {
    Call(Endpoint, Body(1, "getWebAppStatus", None, None), true, true, None)
  }

  /** `set_active_app`: `{"uri": uri}`, no result expected. */
  function ActiveAppRequest(uri: string): (r: Request)
    ensures Targets(r, Endpoint, 601, "setActiveApp", DefaultVersion)
    ensures SendsObject(r, {"uri"}) && SentString(r, "uri") == Some(uri)
    ensures r.isProtected && !r.hasResult
  {
    var params := map["uri" := Str(uri)];
    Call(Endpoint, Body(601, "setActiveApp", None, Some(Object(params))), true, false, None)
  }

  /**
   * The parameter of `set_text_form`: at version 1.1 an object holding the
   * text and, when given, the key; at any other version (or none) the bare
   * text.
   */
  function TextFormParam(text: string, encKey: Option<string>, version: Option<string>): (j: Json)
    ensures version == Some(TextFormObjectVersion) ==>
              j.Object? && j.fields.Keys == (if encKey.Some? then {"encKey", "text"} else {"text"})
              && j.fields["text"] == Str(text)
              && (encKey.Some? ==> j.fields["encKey"] == Str(encKey.value))
    ensures version != Some(TextFormObjectVersion) ==> j == Str(text)
  {
    if version.Some? then
      if version.value == TextFormObjectVersion then
        var m := map[];
        var m := if encKey.Some? then m["encKey" := Str(encKey.value)] else m;
        var m := m["text" := Str(text)];
        Object(m)
      else Str(text)
    else Str(text)
  }

  /** `set_text_form`: the caller's version (default 1.0) and the version-dependent parameter. */
  function SetTextFormRequest(text: string, encKey: Option<string>, version: Option<string>): (r: Request)
    ensures Targets(r, Endpoint, 601, "setTextForm", version.GetOr(DefaultVersion))
    ensures Param(r) == Some(TextFormParam(text, encKey, version)) && |r.body.params| == 1
    ensures r.isProtected && !r.hasResult
  {
    Call(Endpoint, Body(601, "setTextForm", version, Some(TextFormParam(text, encKey, version))), true, false, None)
  }

  /**
   * What the device receives from `set_text_form`: the text always, as the
   * bare parameter exactly when the version is not 1.1; the key exactly when
   * the version is 1.1 and a key is given. The version tag is 1.0 exactly
   * when the caller gives none or 1.0.
   */
  lemma SetTextFormSends(text: string, encKey: Option<string>, version: Option<string>)
    ensures var r := SetTextFormRequest(text, encKey, version);
            && (Param(r) == Some(Str(text)) <==> version != Some(TextFormObjectVersion))
            && (version == Some(TextFormObjectVersion) ==> SentString(r, "text") == Some(text))
            && (SentString(r, "encKey").Some? <==> version == Some(TextFormObjectVersion) && encKey.Some?)
            && (SentString(r, "encKey").Some? ==> SentString(r, "encKey") == encKey)
            && (r.body.version == DefaultVersion <==> version.None? || version == Some(DefaultVersion))
  {
    var r := SetTextFormRequest(text, encKey, version);
    if version == Some(TextFormObjectVersion) {
      assert "text" in Param(r).value.fields;
    }
  }

  /** `terminate_apps`: no parameters at all. */
  function TerminateAppsRequest(): (r: Request)
    ensures Targets(r, Endpoint, 55, "terminateApps", DefaultVersion) && r.body.params == []
    ensures r.isProtected && !r.hasResult
  {
    Call(Endpoint, Body(55, "terminateApps", None, None), true, false, None)
  }
}
