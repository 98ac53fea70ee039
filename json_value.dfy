/**
 * A parsed JSON document, as `json.load` hands it over and `json.dump`
 * takes it. Objects are maps: key order only affects the file's text,
 * never what is read back.
 */
module JsonValue {

  datatype Json =
    | Null
    | Bool(b: bool)
    | Int(i: int)
    | Float(r: real)
    | Str(s: string)
    | Arr(items: seq<Json>)
    | Obj(fields: map<string, Json>)

  /** `d.get(key, default)` on a JSON object. */
  function Get(fields: map<string, Json>, key: string, default: Json): (r: Json)
    ensures key in fields ==> r == fields[key]
    ensures key !in fields ==> r == default
  {
    if key in fields then fields[key] else default
  }
}
