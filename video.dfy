/**
 * The video service (src/video/mod.rs): the picture-quality requests and
 * the reading of the settings the device reports.
 */
module Video {

  import opened Wrappers
  import opened Errors
  import opened Json
  import opened Envelope

  const Endpoint: string := "video"

  /**
   * `PictureQualitySettingsResponse`: target, current value, whether it can
   * be changed, and the raw candidate list (its numeric fields are floating
   * point and are not interpreted here).
   */
  datatype PictureQualitySetting = PictureQualitySetting(target: string, currentValue: string, isAvailable: bool, candidate: Option<seq<Json>>)

  function DecodeCandidates(j: Json): (r: Result<seq<Json>>)
    ensures r.Ok? <==> j.Array?
    ensures r.Ok? ==> r.value == j.items
  {
    if j.Array? then Ok(j.items) else Err(DeserializeError)
  }

  /** Reading one reported setting: `isAvailable` is true when the device leaves it out. */
  function DecodePictureQualitySetting(j: Json): (r: Result<PictureQualitySetting>)
    ensures r.Ok? ==> Get(j, "target") == Some(Str(r.value.target)) && Get(j, "currentValue") == Some(Str(r.value.currentValue))
    ensures r.Ok? ==> (r.value.isAvailable <==> Get(j, "isAvailable").None? || Get(j, "isAvailable") == Some(Bool(true)))
    ensures Get(j, "isAvailable").Some? && !Get(j, "isAvailable").value.Bool? ==> r.Err?
  {
    var target :- Required(j, "target", AsString);
    var currentValue :- Required(j, "currentValue", AsString);
    var isAvailable :- if Get(j, "isAvailable").Some? then AsBool(Get(j, "isAvailable").value) else Ok(true);
    var candidate :- Optional(j, "candidate", DecodeCandidates);
    Ok(PictureQualitySetting(target, currentValue, isAvailable, candidate))
  }

  /** The reported form of a setting; an available one may leave `isAvailable` out. */
  function EncodePictureQualitySetting(s: PictureQualitySetting, withAvailability: bool): Json
  {
    var fields := map["target" := Str(s.target), "currentValue" := Str(s.currentValue),
                      "candidate" := if s.candidate.Some? then Array(s.candidate.value) else Null];
    Object(if withAvailability || !s.isAvailable then fields["isAvailable" := Bool(s.isAvailable)] else fields)
  }

  /** A reported setting reads back as itself, whether or not an available one states its availability. */
  lemma PictureQualitySettingRoundTrip(s: PictureQualitySetting, withAvailability: bool)
    ensures DecodePictureQualitySetting(EncodePictureQualitySetting(s, withAvailability)) == Ok(s)
  {
    var e := EncodePictureQualitySetting(s, withAvailability);
    assert Get(e, "target") == Some(Str(s.target));
    assert Get(e, "currentValue") == Some(Str(s.currentValue));
    if !(withAvailability || !s.isAvailable) {
      assert Get(e, "isAvailable") == None by {
        assert "isAvailable" != "target" && "isAvailable" != "currentValue" && "isAvailable" != "candidate";
      }
    }
    OptionalEncoded(e.fields, "candidate", s.candidate, DecodeCandidates, (c: seq<Json>) => Array(c));
  }

  /** `PictureQualitySettingsRequest`: a target and a value, each possibly `null`. */
  datatype PictureQualityChange = PictureQualityChange(target: Option<string>, value: Option<string>)

  function EncodePictureQualityChange(c: PictureQualityChange): Json
  {
    Object(map["target" := FromOptString(c.target), "value" := FromOptString(c.value)])
  }

  /** `get_picture_quality_settings`: `target` only when given, otherwise `{}`; unprotected. */
  function PictureQualitySettingsRequest(target: Option<string>): (r: Request)
    ensures Targets(r, Endpoint, 52, "getPictureQualitySettings", DefaultVersion)
    ensures SendsObject(r, if target.Some? then {"target"} else {})
    ensures SentString(r, "target") == target
    ensures !r.isProtected && r.hasResult && r.get == Index(0)
  {
    var params := map[];
    var params := if target.Some? then params["target" := Str(target.value)] else params;
    Call(Endpoint, Body(52, "getPictureQualitySettings", None, Some(Object(params))), false, true, None)
  }

  /** `set_picture_quality_settings`: the list under `settings`, in order; protected, no result. */
  function PictureQualitySettingsUpdate(settings: seq<PictureQualityChange>): (r: Request)
    ensures Targets(r, Endpoint, 12, "setPictureQualitySettings", DefaultVersion)
    ensures SendsObject(r, {"settings"})
    ensures var sent := Get(Param(r).value, "settings").value;
            sent.Array? && |sent.items| == |settings|
            && forall i :: 0 <= i < |settings| ==>
                 Get(sent.items[i], "target") == Some(FromOptString(settings[i].target))
                 && Get(sent.items[i], "value") == Some(FromOptString(settings[i].value))
    ensures r.isProtected && !r.hasResult
  {
    var params := map["settings" := Array(EncodeItems(settings, EncodePictureQualityChange))];
    Call(Endpoint, Body(12, "setPictureQualitySettings", None, Some(Object(params))), true, false, None)
  }
}
