/**
 * The avContent service (src/av_content/mod.rs): the requests its methods
 * send, and the flattening of the scheme and source lists.
 */
module AvContent {

  import opened Wrappers
  import opened Errors
  import opened Json
  import opened Envelope
  import opened Dispatch
  import opened Client

  const Endpoint: string := "avContent"

  /** The only version whose `getContentCount` carries a `target`. */
  const CountTargetVersion: string := "1.1"

  /** The fixed version of `getContentList`. */
  const ContentListVersion: string := "1.5"

  /** Rust's `u32`. */
  const U32Limit: nat := 0x1_0000_0000

  /** `get_content_count`: `source` always, `type` when given, `target` only at version 1.1; answer `result[0]["count"]`. */
  function ContentCountRequest(source: string, contentType: Option<string>, target: Option<string>, version: Option<string>): (r: Request)
    ensures Targets(r, Endpoint, 11, "getContentCount", version.GetOr(DefaultVersion))
    ensures SentString(r, "source") == Some(source) && SentString(r, "type") == contentType
    ensures r.isProtected && r.hasResult && r.get == Text("count")
  {
    var params := map["source" := Str(source)];
    var params := if contentType.Some? then params["type" := Str(contentType.value)] else params;
    var params :=
      if version.Some? then
        if version.value == CountTargetVersion && target.Some? then params["target" := Str(target.value)] else params
      else params;
    Call(Endpoint, Body(11, "getContentCount", version, Some(Object(params))), true, true, Some(Text("count")))
  }

  /**
   * The keys `get_content_count` sends: `target` is sent, unchanged, exactly
   * at version 1.1 with a target given; at any other version it is dropped.
   */
  lemma ContentCountKeys(source: string, contentType: Option<string>, target: Option<string>, version: Option<string>)
    ensures var r := ContentCountRequest(source, contentType, target, version);
            && SendsObject(r, {"source"} + (if contentType.Some? then {"type"} else {})
                                         + (if version == Some(CountTargetVersion) && target.Some? then {"target"} else {}))
            && (SentString(r, "target").Some? <==> version == Some(CountTargetVersion) && target.Some?)
            && (SentString(r, "target").Some? ==> SentString(r, "target") == target)
  {
  }

  /** `get_content_list`: each of `uri`, `stIdx`, `cnt` only when given; version 1.5. */
  function ContentListRequest(uri: Option<string>, stIdx: Option<nat>, cnt: Option<nat>): (r: Request)
    requires stIdx.Some? ==> stIdx.value < U32Limit
    requires cnt.Some? ==> cnt.value < U32Limit
    ensures Targets(r, Endpoint, 88, "getContentList", ContentListVersion)
    ensures SendsObject(r, (if uri.Some? then {"uri"} else {}) + (if stIdx.Some? then {"stIdx"} else {})
                           + (if cnt.Some? then {"cnt"} else {}))
    ensures SentString(r, "uri") == uri
    ensures stIdx.Some? ==> SendsField(r, "stIdx", Number(stIdx.value))
    ensures cnt.Some? ==> SendsField(r, "cnt", Number(cnt.value))
    ensures r.isProtected && r.hasResult && r.get == Index(0)
  {
    var params := map[];
    var params := if uri.Some? then params["uri" := Str(uri.value)] else params;
    var params := if stIdx.Some? then params["stIdx" := Number(stIdx.value)] else params;
    var params := if cnt.Some? then params["cnt" := Number(cnt.value)] else params;
    Call(Endpoint, Body(88, "getContentList", Some(ContentListVersion), Some(Object(params))), true, true, None)
  }

  /** `get_current_external_input_status`: the caller's version, no parameters, unprotected. */
  function ExternalInputStatusRequest(version: Option<string>): (r: Request)
    ensures Targets(r, Endpoint, 105, "getCurrentExternalInputsStatus", version.GetOr(DefaultVersion))
    ensures r.body.params == []
    ensures !r.isProtected && r.hasResult && r.get == Index(0)
  {
    Call(Endpoint, Body(105, "getCurrentExternalInputsStatus", version, None), false, true, None)
  }

  /** `get_scheme_list`. */
  function SchemeListRequest(): (r: Request)
    ensures Targets(r, Endpoint, 1, "getSchemeList", DefaultVersion) && r.body.params == []
    ensures !r.isProtected && r.hasResult && r.get == Index(0)
  {
    Call(Endpoint, Body(1, "getSchemeList", None, None), false, true, None)
  }

  /** `get_source_list`: `{"scheme": scheme}`. */
  function SourceListRequest(scheme: string): (r: Request)
    ensures Targets(r, Endpoint, 1, "getSourceList", DefaultVersion)
    ensures SendsObject(r, {"scheme"}) && SentString(r, "scheme") == Some(scheme)
    ensures !r.isProtected && r.hasResult && r.get == Index(0)
  {
    var params := map["scheme" := Str(scheme)];
    Call(Endpoint, Body(1, "getSourceList", None, Some(Object(params))), false, true, None)
  }

  /** `get_playing_content_info`. */
  function PlayingContentInfoRequest(): (r: Request)
    ensures Targets(r, Endpoint, 103, "getPlayingContentInfo", DefaultVersion) && r.body.params == []
    ensures r.isProtected && r.hasResult && r.get == Index(0)
  {
    Call(Endpoint, Body(103, "getPlayingContentInfo", None, None), true, true, None)
  }

  /** `set_play_content`: `{"uri": uri}`, no result expected. */
  function PlayContentRequest(uri: string): (r: Request)
    ensures Targets(r, Endpoint, 101, "setPlayContent", DefaultVersion)
    ensures SendsObject(r, {"uri"}) && SentString(r, "uri") == Some(uri)
    ensures r.isProtected && !r.hasResult
  {
    var params := map["uri" := Str(uri)];
    Call(Endpoint, Body(101, "setPlayContent", None, Some(Object(params))), true, false, None)
  }

  // ---------------------------------------------------------------------------
  // Flattening a list of string maps
  // ---------------------------------------------------------------------------

  /** A `HashMap<String, String>` read from JSON: an object whose every value is a string. */
  function DecodeStringMap(j: Json): (r: Result<map<string, string>>)
    ensures r.Ok? <==> j.Object? && forall k :: k in j.fields ==> j.fields[k].Str?
    ensures r.Ok? ==> r.value.Keys == j.fields.Keys && forall k :: k in r.value ==> j.fields[k] == Str(r.value[k])
  {
    if j.Object? && forall k :: k in j.fields ==> j.fields[k].Str? then
      Ok(map k | k in j.fields :: j.fields[k].s)
    else Err(DeserializeError)
  }

  /** `order` lists the keys of `m`, each once: one possible iteration order of the map. */
  ghost predicate IterationOrder(m: map<string, string>, order: seq<string>)
  {
    && |order| == |m|
    && (forall k :: k in m <==> k in order)
    && (forall i, j :: 0 <= i < j < |order| ==> order[i] != order[j])
  }

  /** The values of `m` concatenated in the order `order` visits its keys. */
  function JoinValues(m: map<string, string>, order: seq<string>): string
    requires forall k :: k in order ==> k in m
  {
    if order == [] then "" else m[order[0]] + JoinValues(m, order[1..])
  }

  /** `map.into_values().collect::<String>()`: the values joined in some iteration order of the map. */
  ghost predicate ValuesJoined(m: map<string, string>, s: string)
  {
    exists order :: IterationOrder(m, order) && s == JoinValues(m, order)
  }

  /** With a single entry the iteration order does not matter: the result is that entry's value. */
  lemma SingleEntryJoined(key: string, value: string, s: string)
    requires ValuesJoined(map[key := value], s)
    ensures s == value
  {
    var order :| IterationOrder(map[key := value], order) && s == JoinValues(map[key := value], order);
    assert |map[key := value]| == 1;
    assert order[0] in map[key := value];
    assert order[1..] == [];
    assert JoinValues(map[key := value], order) == value + JoinValues(map[key := value], []);
  }

  /** An empty map joins to the empty string. */
  lemma EmptyJoined(s: string)
    requires ValuesJoined(map[], s)
    ensures s == ""
  {
  }

  /**
   * Joins the values of one map, visiting its keys in an order the model
   * does not fix (a `HashMap`'s iteration order is unspecified).
   */
  method IntoValues(m: map<string, string>) returns (s: string)
    ensures ValuesJoined(m, s)
  {
    var rest := m;
    ghost var visited: seq<string> := [];
    s := "";
    while rest != map[]
      invariant forall k :: k in rest ==> k in m && m[k] == rest[k]
      invariant forall k :: k in m <==> k in rest || k in visited
      invariant forall k :: k in visited ==> k !in rest
      invariant |visited| + |rest| == |m|
      invariant forall i, j :: 0 <= i < j < |visited| ==> visited[i] != visited[j]
      invariant forall k :: k in visited ==> k in m
      invariant s == JoinValues(m, visited)
      decreases |rest|
    {
      var k :| k in rest;
      JoinValuesSnoc(m, visited, k);
      s := s + rest[k];
      visited := visited + [k];
      rest := rest - {k};
    }
    assert IterationOrder(m, visited);
  }

  /** Joining one more key appends its value. */
  lemma {:induction false} JoinValuesSnoc(m: map<string, string>, order: seq<string>, k: string)
    requires forall x :: x in order ==> x in m
    requires k in m
    ensures JoinValues(m, order + [k]) == JoinValues(m, order) + m[k]
  {
    if order != [] {
      assert (order + [k])[1..] == order[1..] + [k];
      JoinValuesSnoc(m, order[1..], k);
    }
  }

  /**
   * The loop of `get_scheme_list`/`get_source_list`: one string per map, in
   * the order of the list, each the concatenation of that map's values.
   */
  method Flatten(maps: seq<map<string, string>>) returns (result: seq<string>)
    ensures |result| == |maps|
    ensures forall i :: 0 <= i < |maps| ==> ValuesJoined(maps[i], result[i])
  {
    result := [];
    var i := 0;
    while i < |maps|
      invariant 0 <= i <= |maps|
      invariant |result| == i
      invariant forall j :: 0 <= j < i ==> ValuesJoined(maps[j], result[j])
    {
      var joined := IntoValues(maps[i]);
      result := result + [joined];
      i := i + 1;
    }
  }

  /**
   * `get_scheme_list` / `get_source_list` after the dispatch: the answer must
   * be a list of string maps, which is then flattened.
   */
  method StringMapList(answer: Json) returns (r: Result<seq<string>>)
    ensures r.Ok? <==> DecodeArray(answer, DecodeStringMap).Ok?
    ensures r.Err? ==> r == Err(DeserializeError)
    ensures r.Ok? ==> var maps := DecodeArray(answer, DecodeStringMap).value;
                      |r.value| == |maps| && forall i :: 0 <= i < |maps| ==> ValuesJoined(maps[i], r.value[i])
  {
    var maps := DecodeArray(answer, DecodeStringMap);
    if maps.Err? {
      DecodeItemsError(answer);
      return Err(DeserializeError);
    }
    var flat := Flatten(maps.value);
    return Ok(flat);
  }

  /** Decoding a list of string maps can only fail as a deserialisation error. */
  lemma DecodeItemsError(answer: Json)
    requires DecodeArray(answer, DecodeStringMap).Err?
    ensures DecodeArray(answer, DecodeStringMap).error == DeserializeError
  {
    if answer.Array? {
      DecodeStringMapItemsError(answer.items);
    }
  }

  lemma {:induction false} DecodeStringMapItemsError(items: seq<Json>)
    requires DecodeItems(items, DecodeStringMap).Err?
    ensures DecodeItems(items, DecodeStringMap).error == DeserializeError
  {
    if items != [] && DecodeStringMap(items[0]).Ok? {
      DecodeStringMapItemsError(items[1..]);
    }
  }

  /**
   * A device that describes each scheme by a one-entry map yields exactly
   * those scheme names, in order (the `["extInput", "fav"]` answer).
   */
  lemma SingleEntryMapsFlatten(keys: seq<string>, values: seq<string>, result: seq<string>)
    requires |keys| == |values| == |result|
    requires forall i :: 0 <= i < |keys| ==> ValuesJoined(map[keys[i] := values[i]], result[i])
    ensures result == values
  {
    forall i | 0 <= i < |keys| ensures result[i] == values[i] {
      SingleEntryJoined(keys[i], values[i], result[i]);
    }
  }

  /** `get_scheme_list` on a client: dispatch (unwrapped), then flatten. */
  method GetSchemeList(bravia: Bravia, outcome: HttpOutcome) returns (r: Result<seq<string>>)
    requires WellDefined(bravia.apiSupport, bravia.auth, SchemeListRequest(), outcome)
    requires MakeRequest(bravia.apiSupport, bravia.auth, SchemeListRequest(), outcome).Ok?
    ensures var answer := Make(bravia.apiSupport, bravia.auth, SchemeListRequest(), outcome);
            && (r.Ok? <==> DecodeArray(answer, DecodeStringMap).Ok?)
            && (r.Ok? ==> var maps := DecodeArray(answer, DecodeStringMap).value;
                          |r.value| == |maps| && forall i :: 0 <= i < |maps| ==> ValuesJoined(maps[i], r.value[i]))
  {
    var answer := Make(bravia.apiSupport, bravia.auth, SchemeListRequest(), outcome);
    r := StringMapList(answer);
  }

  /** `get_source_list` on a client: dispatch (unwrapped), then flatten. */
  method GetSourceList(bravia: Bravia, scheme: string, outcome: HttpOutcome) returns (r: Result<seq<string>>)
    requires WellDefined(bravia.apiSupport, bravia.auth, SourceListRequest(scheme), outcome)
    requires MakeRequest(bravia.apiSupport, bravia.auth, SourceListRequest(scheme), outcome).Ok?
    ensures var answer := Make(bravia.apiSupport, bravia.auth, SourceListRequest(scheme), outcome);
            && (r.Ok? <==> DecodeArray(answer, DecodeStringMap).Ok?)
            && (r.Ok? ==> var maps := DecodeArray(answer, DecodeStringMap).value;
                          |r.value| == |maps| && forall i :: 0 <= i < |maps| ==> ValuesJoined(maps[i], r.value[i]))
  {
    var answer := Make(bravia.apiSupport, bravia.auth, SourceListRequest(scheme), outcome);
    r := StringMapList(answer);
  }
}
