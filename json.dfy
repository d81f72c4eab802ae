/** JSON values as the connector's JSON libraries, the indexer's dicts and the case-management objects hold them. */
module Json {
  import opened Wrappers

  /**
   * A JSON value. Objects of the Java services are hash maps, so their fields are a
   * `map`; integral numbers (Java `Long`) and the rest (`Double`) are kept apart because
   * the services cast between them.
   */
  datatype Json =
    | JNull
    | JBool(b: bool)
    | JInt(i: int)
    | JReal(r: real)
    | JStr(s: string)
    | JArr(items: seq<Json>)
    | JObj(fields: map<string, Json>)

  /** `JSONObject.get(key)` of json-simple: the value, or null when the key is absent. */
  function Get(fields: map<string, Json>, key: string): (r: Json)
    ensures key !in fields ==> r == JNull
    ensures key in fields ==> r == fields[key]
  {
    if key in fields then fields[key] else JNull
  }

  /** A cast `(String) v` in Java: null passes as null, a non-string raises ClassCastException. */
  function AsString(v: Json): (r: Result<Option<string>>)
    ensures r.Ok? <==> (v.JNull? || v.JStr?)
    ensures r == Ok(None) <==> v.JNull?
    ensures v.JStr? ==> r == Ok(Some(v.s))
  {
    match v
    case JNull => Ok(None)
    case JStr(s) => Ok(Some(s))
    case _ => Err("ClassCastException")
  }

  /** A cast `(JSONObject) v` in Java. */
  function AsObject(v: Json): (r: Result<Option<map<string, Json>>>)
    ensures r.Ok? <==> (v.JNull? || v.JObj?)
    ensures v.JObj? ==> r == Ok(Some(v.fields))
  {
    match v
    case JNull => Ok(None)
    case JObj(m) => Ok(Some(m))
    case _ => Err("ClassCastException")
  }

  /** A nullable Java string stored in a JSON object: null or a string. */
  function JText(s: Option<string>): Json
  {
    if s.Some? then JStr(s.value) else JNull
  }

  /** An HTTP reply of a connector endpoint: a status code and a JSON body. */
  datatype Reply = Reply(status: int, body: Json)

  /** The body the connector endpoints answer with, with status 500, when processing raises. */
  const ProcessingFailure: Json := JObj(map["message" := JStr("Message could not be processed")])

  /** The body the array-answering endpoints send, with status 500, when processing raises: one failure message. */
  const ProcessingFailureArray: Json := JArr([ProcessingFailure])
}
