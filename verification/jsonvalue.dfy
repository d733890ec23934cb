/** A value decoded by `json.loads`, with the Python behaviour the scrape script
    relies on: truthiness (`if not x`) and `str(x)` inside an f-string. */
module JsonValue {
  import opened Wrappers
  import opened Numerals
  import opened PyText

  /** JSON numbers are integers here; objects keep their members in order. */
  datatype Value =
    | JNull
    | JBool(b: bool)
    | JInt(n: int)
    | JStr(s: string)
    | JArr(items: seq<Value>)
    | JObj(members: seq<(string, Value)>)

  /** Python truthiness: `None`, `False`, `0`, `""`, `[]` and `{}` are false. */
  function Truthy(v: Value): (t: bool)
    ensures !t <==> v in {JNull, JBool(false), JInt(0), JStr(""), JArr([]), JObj([])}
  {
    match v
    case JNull => false
    case JBool(b) => b
    case JInt(n) => n != 0
    case JStr(s) => s != ""
    case JArr(items) => items != []
    case JObj(members) => members != []
  }

  /** Python's `str(v)`; a string prints as itself, a string nested in a container
      prints between single quotes. */
  function PyStr(v: Value): (s: string)
    ensures v.JStr? ==> s == v.s
    ensures !v.JStr? ==> |s| > 0
    ensures v == JNull ==> s == "None"
    ensures v == JBool(true) ==> s == "True"
    ensures v == JBool(false) ==> s == "False"
    ensures v.JInt? && v.n >= 0 ==> IsDecimalOf(s, v.n)
    ensures v.JInt? && v.n < 0 ==> |s| > 1 && s[0] == '-' && IsDecimalOf(s[1..], -v.n)
  {
    match v
    case JStr(s) => s
    case _ => Repr(v)
  }

  /** Python's `repr(v)`. */
  function Repr(v: Value): (s: string)
    ensures |s| > 0
  {
    match v
    case JNull => "None"
    case JBool(b) => if b then "True" else "False"
    case JInt(n) => IntDecimal(n)
    case JStr(s) => "'" + s + "'"
    case JArr(items) =>
      "[" + Join(", ", seq(|items|, k requires 0 <= k < |items| => Repr(items[k]))) + "]"
    case JObj(members) =>
      "{" + Join(", ", seq(|members|, k requires 0 <= k < |members| =>
                             "'" + members[k].0 + "': " + Repr(members[k].1))) + "}"
  }
}
