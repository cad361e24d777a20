/** JSON values as the handlers receive them from `request.get_json()`, with
    the Python semantics the handlers apply to them: truthiness, `dict.get`,
    `x or y`, and `(x or "").strip()`. */
module Json {
  import opened Wrappers
  import opened Text

  /** A decoded JSON value. Numbers are integers in this model. */
  datatype Value =
    | JNull
    | JBool(b: bool)
    | JNum(n: int)
    | JStr(s: string)
    | JArr(items: seq<Value>)
    | JObj(fields: map<string, Value>)

  /** A decoded JSON object: a request body or the claims of a token. */
  type Body = map<string, Value>

  /** Python truthiness: None, False, 0, "", [] and {} are false. */
  predicate Truthy(v: Value) {
    match v
    case JNull => false
    case JBool(b) => b
    case JNum(n) => n != 0
    case JStr(s) => s != []
    case JArr(items) => items != []
    case JObj(fields) => fields != map[]
  }

  /** `d.get(key)`: the value, or None when the key is absent. */
  function Get(d: Body, key: string): Value {
    if key in d then d[key] else JNull
  }

  /** Python's `a or b`: `a` when it is truthy, otherwise `b`. */
  function Or(a: Value, b: Value): (r: Value)
    ensures Truthy(a) || Truthy(b) ==> Truthy(r)
  {
    if Truthy(a) then a else b
  }

  /** `(v or "").strip()`. A truthy value that is not a string has no
      `strip` method; the AttributeError becomes a 500 reply. */
  function StripOrEmpty(v: Value): (r: Result<string>)
    ensures v.JStr? ==> r == Ok(Strip(v.s))
    ensures !v.JStr? && !Truthy(v) ==> r == Ok("")
    ensures r.Err? <==> Truthy(v) && !v.JStr?
    ensures r.Err? ==> r == Err(500, InternalError)
  {
    if !Truthy(v) then Ok("")
    else if v.JStr? then Ok(Strip(v.s))
    else Err(500, InternalError)
  }

  /** The text SQLite keeps when `v` is bound to a NOT NULL TEXT column:
      numbers and booleans are converted by the column's TEXT affinity,
      None violates the constraint and arrays or objects cannot be bound. */
  function NotNullText(v: Value): (r: Result<string>)
    ensures v.JStr? ==> r == Ok(v.s)
    ensures v.JNull? || v.JArr? || v.JObj? ==> r == Err(500, InternalError)
  {
    match v
    case JStr(s) => Ok(s)
    case JNum(n) => Ok(IntToString(n))
    case JBool(b) => Ok(if b then "1" else "0")
    case _ => Err(500, InternalError)
  }
}
