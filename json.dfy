/** The JSON values a payment header is made of once it is a Python dict. */
module JsonValues {
  import opened Wrappers

  /**
   * An object is a Python dict with string keys, as a map: insertion order,
   * which `json.dumps` follows, is not kept, and the abstract `jsonDumps`
   * ignores it.
   */
  datatype Json =
    | JNull
    | JBool(b: bool)
    | JInt(i: int)
    | JStr(s: string)
    | JArr(items: seq<Json>)
    | JObj(fields: map<string, Json>)

  /** The string stored under `key`, if there is one. */
  function GetStr(m: map<string, Json>, key: string): Option<string>
  {
    if key in m && m[key].JStr? then Some(m[key].s) else None
  }

  /** The integer stored under `key`, if there is one. */
  function GetInt(m: map<string, Json>, key: string): Option<int>
  {
    if key in m && m[key].JInt? then Some(m[key].i) else None
  }

  /** The object stored under `key`, if there is one. */
  function GetObj(m: map<string, Json>, key: string): Option<map<string, Json>>
  {
    if key in m && m[key].JObj? then Some(m[key].fields) else None
  }
}
