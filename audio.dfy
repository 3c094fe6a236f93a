/**
 * The audio service (src/audio/mod.rs): the requests its methods send, and
 * the settings lists they carry.
 */
module Audio {

  import opened Wrappers
  import opened Errors
  import opened Json
  import opened Envelope

  const Endpoint: string := "audio"

  /** The fixed version of `getSoundSettings` and `setSoundSettings`. */
  const SoundSettingsVersion: string := "1.1"

  /** The only version whose `setAudioVolume` carries a `ui` switch. */
  const VolumeUiVersion: string := "1.2"

  /** `SoundSettings` / `SpeakerSettings`: a target and its value (the two share their wire form). */
  datatype Setting = Setting(target: string, value: string)

  /** The serialised form of a setting. */
  function EncodeSetting(s: Setting): Json
  {
    Object(map["target" := Str(s.target), "value" := Str(s.value)])
  }

  /**
   * Reading a setting back: `value` may also arrive as `currentValue`; a
   * field given under both names is a duplicate and is refused.
   */
  function DecodeSetting(j: Json): (r: Result<Setting>)
    ensures r.Ok? ==> j.Object? && Get(j, "target") == Some(Str(r.value.target))
    ensures r.Ok? ==> Get(j, "value") == Some(Str(r.value.value)) || Get(j, "currentValue") == Some(Str(r.value.value))
    ensures Get(j, "value").Some? && Get(j, "currentValue").Some? ==> r == Err(DeserializeError)
  {
    var target :- Required(j, "target", AsString);
    if Get(j, "value").Some? && Get(j, "currentValue").Some? then Err(DeserializeError)
    else if Get(j, "value").Some? then
      var value :- AsString(Get(j, "value").value);
      Ok(Setting(target, value))
    else
      var value :- Required(j, "currentValue", AsString);
      Ok(Setting(target, value))
  }

  /** A setting reads back from its own serialised form, and from the device's `currentValue` form. */
  lemma SettingRoundTrip(s: Setting)
    ensures DecodeSetting(EncodeSetting(s)) == Ok(s)
    ensures DecodeSetting(Object(map["target" := Str(s.target), "currentValue" := Str(s.value)])) == Ok(s)
  {
    var e := EncodeSetting(s);
    assert Get(e, "target") == Some(Str(s.target));
    assert Get(e, "currentValue") == None by { assert "currentValue" != "value"; assert "currentValue" != "target"; }
    var d := Object(map["target" := Str(s.target), "currentValue" := Str(s.value)]);
    assert Get(d, "value") == None by { assert "value" != "currentValue"; assert "value" != "target"; }
  }

  /** A list of settings reads back from its serialised form, element by element. */
  lemma SettingsRoundTrip(ss: seq<Setting>)
    ensures DecodeArray(Array(EncodeItems(ss, EncodeSetting)), DecodeSetting) == Ok(ss)
  {
    forall i | 0 <= i < |ss| ensures DecodeSetting(EncodeSetting(ss[i])) == Ok(ss[i]) {
      SettingRoundTrip(ss[i]);
    }
    DecodeEncodeItems(ss, DecodeSetting, EncodeSetting);
  }

  /** `get_sound_settings`: version 1.1, a `target` key always present (`null` for none), unprotected. */
  function SoundSettingsRequest(target: Option<string>): (r: Request)
    ensures Targets(r, Endpoint, 73, "getSoundSettings", SoundSettingsVersion)
    ensures SendsObject(r, {"target"}) && SendsField(r, "target", FromOptString(target))
    ensures !r.isProtected && r.hasResult && r.get == Index(0)
  {
    var params := map["target" := FromOptString(target)];
    Call(Endpoint, Body(73, "getSoundSettings", Some(SoundSettingsVersion), Some(Object(params))), false, true, None)
  }

  /** `get_speaker_settings`: as `get_sound_settings` at the default version. */
  function SpeakerSettingsRequest(target: Option<string>): (r: Request)
    ensures Targets(r, Endpoint, 67, "getSpeakerSettings", DefaultVersion)
    ensures SendsObject(r, {"target"}) && SendsField(r, "target", FromOptString(target))
    ensures !r.isProtected && r.hasResult && r.get == Index(0)
  {
    var params := map["target" := FromOptString(target)];
    Call(Endpoint, Body(67, "getSpeakerSettings", None, Some(Object(params))), false, true, None)
  }

  /** `get_volume_information`. */
  function VolumeInformationRequest(): (r: Request)
    ensures Targets(r, Endpoint, 33, "getVolumeInformation", DefaultVersion) && r.body.params == []
    ensures !r.isProtected && r.hasResult && r.get == Index(0)
  {
    Call(Endpoint, Body(33, "getVolumeInformation", None, None), false, true, None)
  }

  /** `set_audio_mute`: `{"status": status}`; unlike the other setters it expects a result. */
  function AudioMuteRequest(status: bool): (r: Request)
    ensures Targets(r, Endpoint, 601, "setAudioMute", DefaultVersion)
    ensures SendsObject(r, {"status"}) && SendsField(r, "status", Bool(status))
    ensures r.isProtected && r.hasResult && r.get == Index(0)
  {
    var params := map["status" := Bool(status)];
    Call(Endpoint, Body(601, "setAudioMute", None, Some(Object(params))), true, true, None)
  }

  /** `set_audio_volume`: `target` (or `null`) and `volume` always; `ui` only at version 1.2 and when given. */
  function AudioVolumeRequest(target: Option<string>, volume: string, ui: Option<string>, version: Option<string>): (r: Request)
    ensures Targets(r, Endpoint, 98, "setAudioVolume", version.GetOr(DefaultVersion))
    ensures SendsField(r, "target", FromOptString(target)) && SendsField(r, "volume", Str(volume))
    ensures r.isProtected && !r.hasResult
  {
    var params := map[];
    var params := params["target" := FromOptString(target)];
    var params := params["volume" := Str(volume)];
    var params :=
      if version.Some? then
        if version.value == VolumeUiVersion && ui.Some? then params["ui" := FromOptString(ui)] else params
      else params;
    Call(Endpoint, Body(98, "setAudioVolume", version, Some(Object(params))), true, false, None)
  }

  /** The `ui` switch is sent exactly at version 1.2 with a value given, and it is then that value. */
  lemma AudioVolumeUi(target: Option<string>, volume: string, ui: Option<string>, version: Option<string>)
    ensures var r := AudioVolumeRequest(target, volume, ui, version);
            && (version == Some(VolumeUiVersion) && ui.Some? ==> SendsObject(r, {"target", "volume", "ui"}) && SentString(r, "ui") == ui)
            && (!(version == Some(VolumeUiVersion) && ui.Some?) ==> SendsObject(r, {"target", "volume"}))
  {
  }

  /** `set_sound_settings`: the list under `settings`, version 1.1. */
  function SoundSettingsUpdate(settings: seq<Setting>): (r: Request)
    ensures Targets(r, Endpoint, 5, "setSoundSettings", SoundSettingsVersion)
    ensures SendsObject(r, {"settings"}) && SendsField(r, "settings", Array(EncodeItems(settings, EncodeSetting)))
    ensures r.isProtected && !r.hasResult
  {
    var params := map["settings" := Array(EncodeItems(settings, EncodeSetting))];
    Call(Endpoint, Body(5, "setSoundSettings", Some(SoundSettingsVersion), Some(Object(params))), true, false, None)
  }

  /** `set_speaker_settings`: the list under `settings`, default version. */
  function SpeakerSettingsUpdate(settings: seq<Setting>): (r: Request)
    ensures Targets(r, Endpoint, 62, "setSpeakerSettings", DefaultVersion)
    ensures SendsObject(r, {"settings"}) && SendsField(r, "settings", Array(EncodeItems(settings, EncodeSetting)))
    ensures r.isProtected && !r.hasResult
  {
    var params := map["settings" := Array(EncodeItems(settings, EncodeSetting))];
    Call(Endpoint, Body(62, "setSpeakerSettings", None, Some(Object(params))), true, false, None)
  }

  /** What `set_sound_settings` sends is exactly the list the device reads back. */
  lemma SoundSettingsSent(settings: seq<Setting>)
    ensures var r := SoundSettingsUpdate(settings);
            DecodeArray(Get(Param(r).value, "settings").value, DecodeSetting) == Ok(settings)
  {
    SettingsRoundTrip(settings);
  }
}
