/** Python values as the SDK handles them once a JSON body has been parsed,
    with the parts of Python's semantics the code relies on: truthiness,
    subscription and `==` against an integer literal. */
module Json {
  import opened Wrappers

  /** A parsed JSON value. Objects are maps, since a Python dict holds each key once. */
  datatype Json =
    | JNull
    | JBool(b: bool)
    | JInt(i: int)
    | JStr(s: string)
    | JArr(items: seq<Json>)
    | JObj(fields: map<string, Json>)

  /** The Python exceptions the modelled code can raise. */
  datatype PyError =
    | KeyError
    | TypeError
    | AttributeError
    | ValueError(message: string)

  /** Python truthiness: `None`, `False`, `0`, `""`, `[]` and `{}` are false. */
  predicate Truthy(v: Json) {
    match v
    case JNull => false
    case JBool(b) => b
    case JInt(i) => i != 0
    case JStr(s) => |s| > 0
    case JArr(items) => |items| > 0
    case JObj(fields) => |fields| > 0
  }

  /** `v[key]` on a parsed value: a dict lookup, a KeyError for a missing key,
      and a TypeError for anything that is not a dict. */
  function Subscript(v: Json, key: string): (r: Result<Json, PyError>)
    ensures r.Ok? <==> v.JObj? && key in v.fields
    ensures r.Ok? ==> r.value == v.fields[key]
    ensures r.Err? ==> (r.error == KeyError <==> v.JObj?)
    ensures r.Err? ==> (r.error == TypeError <==> !v.JObj?)
  {
    match v
    case JObj(fields) => if key in fields then Ok(fields[key]) else Err(KeyError)
    case _ => Err(TypeError)
  }

  /** Python's `v == n` for an integer literal `n`; `bool` is a subclass of
      `int`, so `True == 1` and `False == 0` hold. */
  predicate EqualsInt(v: Json, n: int) {
    match v
    case JInt(i) => i == n
    case JBool(b) => (if b then 1 else 0) == n
    case _ => false
  }

  /** Python's falsy values, listed: `None`, `False`, `0`, `""`, `[]` and `{}`. */
  lemma FalsyValues(v: Json)
    ensures !Truthy(v) <==> v in [JNull, JBool(false), JInt(0), JStr(""), JArr([]), JObj(map[])]
  {
    if v.JObj? && |v.fields| == 0 {
      assert v.fields == map[];
    }
  }

  /** `True == 1` and `False == 0`, while a string never equals an integer. */
  lemma BoolsCompareAsIntegers(b: bool, s: string, n: int)
    ensures EqualsInt(JBool(b), n) <==> n == (if b then 1 else 0)
    ensures EqualsInt(JInt(n), n)
    ensures !EqualsInt(JStr(s), n)
  {
  }
}
