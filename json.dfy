/**
 * The org.json values the library receives from the backend and keeps in
 * storage, and the two accessor idioms it uses on them.
 */
module Json {

  /** A JSON value; numbers are integers in this model. */
  datatype Json =
    | JNull
    | JBool(b: bool)
    | JNumber(n: int)
    | JString(s: string)
    | JArray(items: seq<Json>)
    | JObject(fields: map<string, Json>)

  /** A `JSONObject`: its keys are unique and unordered. */
  type JsonObject = map<string, Json>

  /**
   * The outcome of `o.has(k) ? o.getX(k) : null`: the key is absent (null),
   * present with the expected type, or present with another type, in which
   * case `getX` throws a `JSONException`.
   */
  datatype Field<+T> = Missing | Found(value: T) | WrongType

  /** `o.has(key) ? o.getString(key) : null` */
  function StringField(o: JsonObject, key: string): (f: Field<string>)
    ensures f == Missing <==> key !in o
    ensures f.Found? <==> key in o && o[key].JString?
    ensures f.Found? ==> o[key] == JString(f.value)
  {
    if key !in o then Missing
    else if o[key].JString? then Found(o[key].s)
    else WrongType
  }

  /** `o.has(key) ? o.getJSONObject(key) : null` */
  function ObjectField(o: JsonObject, key: string): (f: Field<JsonObject>)
    ensures f == Missing <==> key !in o
    ensures f.Found? <==> key in o && o[key].JObject?
    ensures f.Found? ==> o[key] == JObject(f.value)
  {
    if key !in o then Missing
    else if o[key].JObject? then Found(o[key].fields)
    else WrongType
  }
}
