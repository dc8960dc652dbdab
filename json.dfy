/** The dynamically typed values the service passes around in Python dicts
    (token responses, userinfo documents, session user data), with the three
    Python idioms the source relies on: truthiness, `dict.get` and `a or b`. */
module Json {
  import opened Wrappers

  /** A JSON-like value. Floating-point numbers are not modelled. */
  datatype Json =
    | JNull
    | JBool(b: bool)
    | JInt(i: int)
    | JStr(s: string)
    | JArr(items: seq<Json>)
    | JObj(fields: map<string, Json>)

  /** A Python `dict` with string keys. */
  type Dict = map<string, Json>

  /** Python truthiness: `None`, `False`, `0`, `""`, `[]` and `{}` are false. */
  predicate Truthy(v: Json)
  {
    match v
    case JNull => false
    case JBool(b) => b
    case JInt(i) => i != 0
    case JStr(s) => s != ""
    case JArr(items) => items != []
    case JObj(fields) => fields != map[]
  }

  /** The decimal digits of a natural number, most significant first. */
  function NatText(n: nat): (r: string)
    ensures r != []
    ensures forall k | 0 <= k < |r| :: '0' <= r[k] <= '9'
    decreases n
  {
    if n < 10 then [(48 + n) as char] else NatText(n / 10) + [(48 + n % 10) as char]
  }

  /** Python `str(v)` for the scalar values: `None`, `True`/`False`, an integer
      in decimal, a string as itself. Lists and dicts are not rendered. */
  function PyStr(v: Json): string
  {
    match v
    case JNull => "None"
    case JBool(b) => if b then "True" else "False"
    case JInt(i) => if i < 0 then "-" + NatText(-i) else NatText(i)
    case JStr(s) => s
    case JArr(_) => ""
    case JObj(_) => ""
  }

  /** `d.get(key)`: the stored value, or `None` when the key is absent. */
  function Get(d: Dict, key: string): Json
  {
    if key in d then d[key] else JNull
  }

  /** `d.get(key, default)`: the default is used only when the key is absent,
      not when it is present with a falsy value. */
  function GetOr(d: Dict, key: string, default: Json): Json
  {
    if key in d then d[key] else default
  }

  /** Python `a or b`: the first operand when it is truthy, else the second. */
  function Or(a: Json, b: Json): (r: Json)
    ensures Truthy(r) <==> Truthy(a) || Truthy(b)
    ensures Truthy(a) ==> r == a
    ensures !Truthy(a) ==> r == b
  {
    if Truthy(a) then a else b
  }

  /** Python `a or b or c`, which associates to the left. The result is the first
      truthy operand; when none is truthy it is the last operand. */
  function FirstTruthy(a: Json, b: Json, c: Json): (r: Json)
    ensures Truthy(r) <==> Truthy(a) || Truthy(b) || Truthy(c)
    ensures Truthy(a) ==> r == a
    ensures !Truthy(a) && Truthy(b) ==> r == b
    ensures !Truthy(a) && !Truthy(b) ==> r == c
  {
    Or(Or(a, b), c)
  }

  /** Python truthiness of an optional string (a query parameter or a cookie):
      present and non-empty. */
  predicate IsPresent(v: Option<string>)
  {
    v.Some? && v.value != ""
  }
}
