/**
 * JSON values as Python holds them after `response.json()`, and the Python operations the
 * engine applies to them: truthiness, `str()`, `d.get(k, default)`, `d[k]`, `v[0]`, `k in v`,
 * `d[k] = x`, `int(v)` and iteration. A Python None is `JNull`.
 */
module Json {
  import opened Wrappers
  import opened Failures
  import Text

  datatype Json =
    | JNull
    | JBool(b: bool)
    | JInt(i: int)
    | JStr(s: string)
    | JArr(items: seq<Json>)
    | JObj(fields: map<string, Json>)

  /** Python truthiness. */
  predicate Truthy(v: Json) {
    match v
    case JNull => false
    case JBool(b) => b
    case JInt(i) => i != 0
    case JStr(s) => s != ""
    case JArr(items) => items != []
    case JObj(fields) => fields != map[]
  }

  /** `str(v)` for scalars; containers render as a fixed placeholder (see README). */
  function PyStr(v: Json): string {
    match v
    case JNull => "None"
    case JBool(b) => if b then "True" else "False"
    case JInt(i) => Text.IntToString(i)
    case JStr(s) => s
    case JArr(_) => "<list>"
    case JObj(_) => "<dict>"
  }

  /** `v.get(key, default)`: only a dict has `get`. */
  function Get(v: Json, key: string, default: Json): (r: Result<Json, Error>)
    ensures r.Ok? <==> v.JObj?
    ensures r.Ok? ==> r.value == if key in v.fields then v.fields[key] else default
  {
    match v
    case JObj(fields) => Ok(if key in fields then fields[key] else default)
    case _ => Err(TypeError("only a dict has get"))
  }

  /** `v[key]` with a str key. */
  function Subscript(v: Json, key: string): (r: Result<Json, Error>)
    ensures r.Ok? <==> v.JObj? && key in v.fields
    ensures r.Ok? ==> r.value == v.fields[key]
    ensures v.JObj? && key !in v.fields ==> r == Err(KeyError(key))
  {
    match v
    case JObj(fields) => if key in fields then Ok(fields[key]) else Err(KeyError(key))
    case _ => Err(TypeError("not subscriptable by str"))
  }

  /** `v[0]`. */
  function First(v: Json): (r: Result<Json, Error>)
    ensures v.JArr? && v.items != [] ==> r == Ok(v.items[0])
    ensures r.Ok? ==> (v.JArr? && v.items != []) || (v.JStr? && v.s != [])
  {
    match v
    case JArr(items) => if items != [] then Ok(items[0]) else Err(IndexError)
    case JStr(s) => if s != [] then Ok(JStr([s[0]])) else Err(IndexError)
    case JObj(_) => Err(KeyError("0"))
    case _ => Err(TypeError("not subscriptable"))
  }

  /** Python's `x in s` on two strs: x occurs somewhere in s. */
  predicate IsSubstring(x: string, s: string) {
    x <= s || (s != [] && IsSubstring(x, s[1..]))
  }

  /** `x in v` for a str x. */
  function Contains(v: Json, x: string): (r: Result<bool, Error>)
    ensures v.JObj? ==> r == Ok(x in v.fields)
    ensures r.Ok? <==> v.JObj? || v.JArr? || v.JStr?
  {
    match v
    case JObj(fields) => Ok(x in fields)
    case JArr(items) => Ok(JStr(x) in items)
    case JStr(s) => Ok(IsSubstring(x, s))
    case _ => Err(TypeError("argument is not iterable"))
  }

  /** `v[key] = x`, returning the updated dict. */
  function Set(v: Json, key: string, x: Json): (r: Result<Json, Error>)
    ensures r.Ok? <==> v.JObj?
    ensures r.Ok? ==> r.value == JObj(v.fields[key := x])
  {
    match v
    case JObj(fields) => Ok(JObj(fields[key := x]))
    case _ => Err(TypeError("item assignment needs a dict"))
  }

  /** `int(v)`. */
  function ToInt(v: Json): (r: Result<int, Error>)
    ensures v.JInt? ==> r == Ok(v.i)
    ensures v.JStr? ==> (r.Ok? <==> Text.ParseInt(v.s).Some?)
  {
    match v
    case JInt(i) => Ok(i)
    case JBool(b) => Ok(if b then 1 else 0)
    case JStr(s) =>
      var p := Text.ParseInt(s);
      if p.Some? then Ok(p.value) else Err(ValueError("invalid literal for int()"))
    case _ => Err(TypeError("int() argument"))
  }

  /** The values `for x in v` visits. */
  function Iterate(v: Json): (r: Result<seq<Json>, Error>)
    ensures v.JArr? ==> r == Ok(v.items)
    ensures v.JNull? ==> r.Err?
  {
    match v
    case JArr(items) => Ok(items)
    case JStr(s) => Ok(seq(|s|, i requires 0 <= i < |s| => JStr([s[i]])))
    case JObj(_) => Err(Unmodelled("iteration over a dict"))
    case _ => Err(TypeError("object is not iterable"))
  }
}
