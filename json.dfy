/**
 * The parsed JSON tree that the extraction walks, with the strict accessors
 * that stand in for `JSONObject.getJSONObject`, `getJSONArray`, `getDouble`,
 * `getString`, `getLong` and `JSONArray.getJSONObject`. Each accessor either
 * yields a value or fails (the `JSONException` of the library).
 */
module Json {
  import opened Wrappers
  import opened Quake

  datatype JsonValue =
    | JNull
    | JBool(b: bool)
    | JNumber(n: real)
    | JString(s: string)
    | JArray(elements: seq<JsonValue>)
    | JObject(members: map<string, JsonValue>)

  type JsonObject = map<string, JsonValue>

  /** The text parser of the library, left abstract. */
  type Parser = string -> Option<JsonValue>

  /** `new JSONObject(text)`: the text must parse to an object at the top level. */
  function ParseObject(parse: Parser, text: string): Option<JsonObject>
  {
    match parse(text)
    case Some(JObject(m)) => Some(m)
    case _ => None
  }

  function GetJSONObject(o: JsonObject, key: string): Option<JsonObject>
  {
    if key in o && o[key].JObject? then Some(o[key].members) else None
  }

  function GetJSONArray(o: JsonObject, key: string): Option<seq<JsonValue>>
  {
    if key in o && o[key].JArray? then Some(o[key].elements) else None
  }

  function GetDouble(o: JsonObject, key: string): Option<real>
  {
    if key in o && o[key].JNumber? then Some(o[key].n) else None
  }

  function GetString(o: JsonObject, key: string): Option<string>
  {
    if key in o && o[key].JString? then Some(o[key].s) else None
  }

  /** Succeeds on a number that is integral and within the range of a Java `long`. */
  function GetLong(o: JsonObject, key: string): Option<int64>
  {
    if key in o && o[key].JNumber? && o[key].n == o[key].n.Floor as real
       && -0x8000_0000_0000_0000 <= o[key].n.Floor < 0x8000_0000_0000_0000
    then Some(o[key].n.Floor as int64)
    else None
  }

  /** `JSONArray.getJSONObject(i)` for an index within the array. */
  function ElementObject(a: seq<JsonValue>, i: nat): Option<JsonObject>
    requires i < |a|
  {
    if a[i].JObject? then Some(a[i].members) else None
  }
}
