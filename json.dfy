/**
 * JSON values as the client handles them (serde_json's `Value`), with the
 * lookups the dispatcher uses and the small decoding/encoding vocabulary that
 * stands for serde's derived `Deserialize`/`Serialize` implementations.
 * Objects are maps: serde_json's `Map` keeps one value per key, in key order.
 * Numbers are integers; floating point is not modelled.
 */
module Json {

  import opened Wrappers
  import opened Errors

  datatype Json =
    | Null
    | Bool(b: bool)
    | Number(n: int)
    | Str(s: string)
    | Array(items: seq<Json>)
    | Object(fields: map<string, Json>)

  /** `Value::get_mut(&str)`: the field of an object; nothing for any other value. */
  function Get(j: Json, key: string): (r: Option<Json>)
    ensures r.Some? <==> j.Object? && key in j.fields
    ensures r.Some? ==> r.value == j.fields[key]
  {
    if j.Object? && key in j.fields then Some(j.fields[key]) else None
  }

  /** `Value::get_mut(usize)`: the element of an array; nothing out of bounds or for any other value. */
  function At(j: Json, i: nat): (r: Option<Json>)
    ensures r.Some? <==> j.Array? && i < |j.items|
    ensures r.Some? ==> r.value == j.items[i]
  {
    if j.Array? && i < |j.items| then Some(j.items[i]) else None
  }

  /** `Value::from(Option<String>)`: `null` for `None`. */
  function FromOptString(o: Option<string>): Json
  {
    match o
    case None => Null
    case Some(s) => Str(s)
  }

  /** `Value::from(Vec<String>)`. */
  function FromStrings(xs: seq<string>): (j: Json)
    ensures j.Array? && |j.items| == |xs|
    ensures forall i :: 0 <= i < |xs| ==> j.items[i] == Str(xs[i])
  {
    Array(seq(|xs|, i requires 0 <= i < |xs| => Str(xs[i])))
  }

  // ---------------------------------------------------------------------------
  // Decoding: what serde's derived Deserialize accepts
  // ---------------------------------------------------------------------------

  function AsString(j: Json): (r: Result<string>)
    ensures r.Ok? <==> j.Str?
  {
    if j.Str? then Ok(j.s) else Err(DeserializeError)
  }

  function AsBool(j: Json): (r: Result<bool>)
    ensures r.Ok? <==> j.Bool?
  {
    if j.Bool? then Ok(j.b) else Err(DeserializeError)
  }

  /** An unsigned integer below `limit` (`usize`, `u32`, ...). */
  function AsUnsigned(j: Json, limit: nat): (r: Result<nat>)
    ensures r.Ok? <==> j.Number? && 0 <= j.n < limit
    ensures r.Ok? ==> r.value == j.n
  {
    if j.Number? && 0 <= j.n < limit then Ok(j.n as nat) else Err(DeserializeError)
  }

  /** A required field: missing (or not an object at all) is a deserialisation error. */
  function Required<T>(j: Json, key: string, f: Json -> Result<T>): (r: Result<T>)
    ensures Get(j, key).None? ==> r == Err(DeserializeError)
    ensures Get(j, key).Some? ==> r == f(Get(j, key).value)
  {
    match Get(j, key)
    case None => Err(DeserializeError)
    case Some(v) => f(v)
  }

  /** A field of type `Option<T>`: missing or `null` reads as `None`. */
  function Optional<T>(j: Json, key: string, f: Json -> Result<T>): (r: Result<Option<T>>)
    ensures (Get(j, key).None? || Get(j, key) == Some(Null)) ==> r == Ok(None)
  {
    match Get(j, key)
    case None => Ok(None)
    case Some(v) =>
      if v.Null? then Ok(None)
      else match f(v)
        case Ok(x) => Ok(Some(x))
        case Err(e) => Err(e)
  }

  /** Decodes every element with `f`; the first failure wins. */
  function DecodeItems<T>(items: seq<Json>, f: Json -> Result<T>): (r: Result<seq<T>>)
    ensures r.Ok? ==> |r.value| == |items|
    ensures r.Ok? ==> forall i :: 0 <= i < |items| ==> f(items[i]) == Ok(r.value[i])
  {
    if items == [] then Ok([])
    else
      match f(items[0])
      case Err(e) => Err(e)
      case Ok(x) =>
        match DecodeItems(items[1..], f)
        case Err(e) => Err(e)
        case Ok(xs) => Ok([x] + xs)
  }

  /** A `Vec<T>`: an array whose every element decodes. */
  function DecodeArray<T>(j: Json, f: Json -> Result<T>): (r: Result<seq<T>>)
    ensures !j.Array? ==> r == Err(DeserializeError)
    ensures j.Array? ==> r == DecodeItems(j.items, f)
  {
    if j.Array? then DecodeItems(j.items, f) else Err(DeserializeError)
  }

  // ---------------------------------------------------------------------------
  // Encoding: what serde's derived Serialize produces
  // ---------------------------------------------------------------------------

  function EncodeItems<T>(xs: seq<T>, g: T -> Json): (items: seq<Json>)
    ensures |items| == |xs|
    ensures forall i :: 0 <= i < |xs| ==> items[i] == g(xs[i])
  {
    seq(|xs|, i requires 0 <= i < |xs| => g(xs[i]))
  }

  /** `Option<T>` serialises as `null` or as the value. */
  function EncodeOption<T>(o: Option<T>, g: T -> Json): Json
  {
    match o
    case None => Null
    case Some(x) => g(x)
  }

  /** Decoding an encoded list gives the list back, given that it holds element-wise. */
  lemma {:induction false} DecodeEncodeItems<T>(xs: seq<T>, f: Json -> Result<T>, g: T -> Json)
    requires forall i :: 0 <= i < |xs| ==> f(g(xs[i])) == Ok(xs[i])
    ensures DecodeItems(EncodeItems(xs, g), f) == Ok(xs)
  {
    if xs != [] {
      var items := EncodeItems(xs, g);
      assert items[1..] == EncodeItems(xs[1..], g);
      DecodeEncodeItems(xs[1..], f, g);
      assert [xs[0]] + xs[1..] == xs;
    }
  }

  /** An optional value that is never `null` when present reads back as itself. */
  lemma OptionalEncoded<T>(fields: map<string, Json>, key: string, o: Option<T>, f: Json -> Result<T>, g: T -> Json)
    requires o.Some? ==> g(o.value) != Null && f(g(o.value)) == Ok(o.value)
    requires key in fields && fields[key] == EncodeOption(o, g)
    ensures Optional(Object(fields), key, f) == Ok(o)
  {
  }
}
