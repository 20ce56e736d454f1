/** Parsed JSON trees, as Jettison's JSONObject and JSONArray hold them.  Text is not modelled:
    the codec receives and produces trees. */
module JsonTree {
  import opened Results

  datatype Json =
    | JNull
    | JBool(b: bool)
    | JNum(num: int)
    | JStr(str: string)
    | JArr(elems: seq<Json>)
    | JObj(fields: map<string, Json>)

  /** The members of a JSON object. */
  type Object = map<string, Json>

  /** JSONObject.opt: the value stored under `key`, or Java null when there is none. */
  function Opt(obj: Object, key: string): (r: Option<Json>)
    ensures r.Some? <==> key in obj
    ensures r.Some? ==> r.value == obj[key]
  {
    if key in obj then Some(obj[key]) else None
  }
}
