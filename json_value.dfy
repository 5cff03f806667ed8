/**
 * A parsed JSON value as the Python code sees it after `json.load`, with
 * Python's truthiness (`not v`) and its `str(v)` rendering.
 */
module JsonValue {
  import opened Text

  /** JSON numbers are modelled as integers only (floating point is not modelled). */
  datatype Json =
    | JNull
    | JBool(b: bool)
    | JInt(i: int)
    | JStr(s: string)
    | JList(items: seq<Json>)
    | JObj(fields: map<string, Json>)

  /** A Python `dict` parsed from a JSON object. */
  type Dict = map<string, Json>

  /** Python truthiness: `None`, `False`, `0`, `""`, `[]` and `{}` are falsy. */
  predicate Truthy(v: Json)
  {
    match v
    case JNull => false
    case JBool(b) => b
    case JInt(i) => i != 0
    case JStr(s) => s != []
    case JList(xs) => xs != []
    case JObj(m) => m != map[]
  }

  /**
   * Python's `str(v)` (also what an f-string interpolates). A list or an
   * object is rendered by a fixed bracketed placeholder: its inner text is
   * not modelled.
   */
  function Str(v: Json): string
  {
    match v
    case JNull => "None"
    case JBool(b) => if b then "True" else "False"
    case JInt(i) => IntToString(i)
    case JStr(s) => s
    case JList(_) => "[...]"
    case JObj(_) => "{...}"
  }

  /** `d.get(key, default)` */
  function Get(d: Dict, key: string, default: Json): Json
  {
    if key in d then d[key] else default
  }

  /**
   * Only a string can render as blank text: `str(v)` of any other value
   * begins with a letter, a digit, a sign or a bracket.
   */
  lemma OnlyStringsRenderBlank(v: Json)
    ensures v.JStr? || !IsBlank(Str(v))
  {
    if !v.JStr? {
      assert !IsSpace(Str(v)[0]);
    }
  }
}
