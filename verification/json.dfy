/**
 * JSON values as the Python code sees them after `json.loads` / `response.json()`,
 * together with the few Python built-ins the pipeline applies to them.
 */
module Json {
  import opened Wrappers

  /** A JSON value; objects are Python dicts keyed by strings. */
  datatype Json =
    | JNull
    | JBool(b: bool)
    | JNum(n: real)
    | JStr(s: string)
    | JArr(items: seq<Json>)
    | JObj(fields: map<string, Json>)

  /** Python truthiness: `None`, `False`, zero, and empty strings, lists and dicts are false. */
  predicate Truthy(j: Json) {
    match j
    case JNull => false
    case JBool(b) => b
    case JNum(n) => n != 0.0
    case JStr(s) => |s| > 0
    case JArr(xs) => |xs| > 0
    case JObj(m) => |m| > 0
  }

  /** `d.get(key, default)` on a dict. */
  function Get(d: map<string, Json>, key: string, default: Json): Json {
    if key in d then d[key] else default
  }

  /** Python's `a or b`: the first operand when it is truthy, else the second. */
  function Or(a: Json, b: Json): Json {
    if Truthy(a) then a else b
  }

  /**
   * The Python built-ins the pipeline applies to JSON values and that this model
   * does not define: `str()` of a non-string value, `json.dumps` and `json.loads`
   * (`None` when the text is not valid JSON).
   */
  datatype Host = Host(
    format: Json -> string,
    dumps: Json -> string,
    loads: string -> Option<Json>)

  /** `str(v)` / `f"{v}"`: a string renders as itself, anything else through the host. */
  function Show(host: Host, j: Json): string {
    if j.JStr? then j.s else host.format(j)
  }
}
