/** The JSON-decoded values a workitem is made of, together with the few
    Python operations the code applies to them: truthiness, `str()`,
    `==`, subscripting and the attribute proxy over a dict. */
module JsonValues {
  import opened Outcomes
  import opened Strings

  /** A value produced by `json.loads` (floating-point numbers aside):
      None, bool, int, unicode string, list or dict with string keys. */
  datatype Json =
    | JNull
    | JBool(b: bool)
    | JInt(n: int)
    | JStr(s: string)
    | JArr(items: seq<Json>)
    | JObj(members: map<string, Json>)

  /** The empty dict `{}`. */
  const EmptyObj: Json := JObj(map[])

  /** Python truthiness: None, False, 0 and empty strings, lists and dicts
      are false; everything else is true. */
  predicate Truthy(j: Json)
  {
    match j
    case JNull => false
    case JBool(b) => b
    case JInt(n) => n != 0
    case JStr(s) => |s| > 0
    case JArr(items) => |items| > 0
    case JObj(members) => |members| > 0
  }

  /** `str(j)` as `%s` and `str.format` render it. Lists and dicts are shown
      by fixed placeholders instead of Python's repr. */
  function Display(j: Json): string
  {
    match j
    case JNull => "None"
    case JBool(b) => if b then "True" else "False"
    case JInt(n) => ShowInt(n)
    case JStr(s) => s
    case JArr(_) => "[...]"
    case JObj(_) => "{...}"
  }

  /** Python's `a == b` on decoded JSON: structural, except that `bool` is a
      subclass of `int`, so True == 1 and False == 0. */
  predicate PyEq(a: Json, b: Json)
  {
    match (a, b)
    case (JArr(xs), JArr(ys)) =>
      |xs| == |ys| && forall i :: 0 <= i < |xs| ==> PyEq(xs[i], ys[i])
    case (JObj(m), JObj(n)) =>
      m.Keys == n.Keys && forall k :: k in m ==> PyEq(m[k], n[k])
    case (JBool(x), JInt(y)) => (if x then 1 else 0) == y
    case (JInt(x), JBool(y)) => x == (if y then 1 else 0)
    case _ => a == b
  }

  /** `j[key]` for a string key: a dict lookup, KeyError when the key is
      missing, TypeError on any other kind of value. */
  function Subscript(j: Json, key: string): (r: Result<Json>)
  {
    match j
    case JObj(m) => if key in m then Ok(m[key]) else Err(KeyError(key))
    case _ => Err(TypeError)
  }

  /** `DictAttrProxy(d).attr`: `d.get(attr, None)` on a dict; any other
      proxied value has no `get` and raises AttributeError. A nested dict
      comes back proxied, which in a value model is the dict itself. */
  function ProxyGet(d: Json, attr: string): (r: Result<Json>)
    ensures r.Err? <==> !d.JObj?
    ensures r.Ok? && attr in d.members ==> r.value == d.members[attr]
    ensures r.Ok? ==> (r.value == JNull <==> attr !in d.members || d.members[attr] == JNull)
  {
    match d
    case JObj(m) => Ok(if attr in m then m[attr] else JNull)
    case _ => Err(AttributeError("get"))
  }
}
