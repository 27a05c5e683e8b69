/**
 * The Python values that flow through the pipeline: what `json.loads` returns
 * (None, bool, number, str, list, dict), plus the two kinds of Python object
 * that pydantic adds on top, an `HttpUrl` object and a model instance.
 */
module Values {
  import opened Wrappers
  import opened PyStr

  datatype Value =
    | VNone
    | VBool(b: bool)
    | VNum(n: real)
    | VStr(s: string)
    | VList(items: seq<Value>)
    | VDict(entries: map<string, Value>)
      /** a pydantic `HttpUrl` object, which is not a `str` */
    | VUrl(url: string)
      /** a pydantic model instance: its field values and `model_fields_set` */
    | VModel(fields: map<string, Value>, fieldsSet: set<string>)

  /** What `json.dumps` can serialise: no `HttpUrl` object and no model instance anywhere inside. */
  predicate JsonSerialisable(v: Value)
  {
    match v
    case VUrl(_) => false
    case VModel(_, _) => false
    case VList(items) => forall i :: 0 <= i < |items| ==> JsonSerialisable(items[i])
    case VDict(m) => forall k :: k in m ==> JsonSerialisable(m[k])
    case _ => true
  }

  /** Python truthiness, as used by `if value:`. */
  predicate Truthy(v: Value)
  {
    match v
    case VNone => false
    case VBool(b) => b
    case VNum(n) => n != 0.0
    case VStr(s) => s != ""
    case VList(items) => items != []
    case VDict(m) => m != map[]
    case _ => true
  }

  /**
   * Python's `key in v` for a `str` key: a dict tests its keys, a list its
   * elements, a str its substrings; on None, a bool or a number it raises
   * TypeError (None here).
   */
  function Contains(v: Value, key: string): (r: Option<bool>)
    ensures v.VDict? ==> r == Some(key in v.entries)
    ensures v.VList? ==> r == Some(VStr(key) in v.items)
    ensures v.VNone? || v.VBool? || v.VNum? ==> r == None
  {
    match v
    case VDict(m) => Some(key in m)
    case VList(items) => Some(VStr(key) in items)
    case VStr(s) => Some(ContainsSub(s, key))
    case _ => None
  }

  /** The dictionary `{"error": error, "details": details}`. */
  function ErrorDict(error: string, details: string): (r: Value)
    ensures r.VDict? && r.entries.Keys == {"error", "details"}
    ensures r.entries["error"] == VStr(error) && r.entries["details"] == VStr(details)
  {
    VDict(map["error" := VStr(error), "details" := VStr(details)])
  }
}
