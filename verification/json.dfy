/**
 The part of Vert.x's `JsonObject` the service relies on: a string-keyed map of
 JSON values, the typed getters `getString` and `getJsonObject`, and `mergeIn`.
 Vert.x 3's typed getters cast the stored value, so reading a value of another
 type throws `ClassCastException`; the model makes that failure explicit.
 */
module Json {
  import opened Optional

  /** A JSON value as a `JsonObject` stores it (numbers are modelled as integers). */
  datatype Json = JNull | JBool(b: bool) | JInt(i: int) | JStr(s: string) | JObj(fields: map<string, Json>)

  type JsonObject = map<string, Json>

  /** The result of a typed read: the value (`None` for a missing key or JSON null), or a failed cast. */
  datatype Cast<+T> = Ok(value: T) | ClassCast

  /** `JsonObject.getString`. */
  function GetString(o: JsonObject, key: string): Cast<Option<string>>
  {
    if key !in o then Ok(None)
    else match o[key]
      case JNull => Ok(None)
      case JStr(s) => Ok(Some(s))
      case _ => ClassCast
  }

  /** `JsonObject.getJsonObject`. */
  function GetJsonObject(o: JsonObject, key: string): Cast<Option<JsonObject>>
  {
    if key !in o then Ok(None)
    else match o[key]
      case JNull => Ok(None)
      case JObj(m) => Ok(Some(m))
      case _ => ClassCast
  }

  /** The value `put(key, s)` stores for a nullable string. */
  function StringOrNull(s: Option<string>): Json
  {
    match s
    case None => JNull
    case Some(v) => JStr(v)
  }

  /** The value `put(key, o)` stores for a nullable JSON object. */
  function ObjectOrNull(o: Option<JsonObject>): Json
  {
    match o
    case None => JNull
    case Some(m) => JObj(m)
  }

  /** `o.mergeIn(other)`: every entry of `other` is copied into `o`, overwriting. */
  function MergeIn(o: JsonObject, other: JsonObject): JsonObject
  {
    o + other
  }
}
