/**
 * Decoded JSON values as the validator receives them from its libraries
 * (token headers, the published key set, token claims), together with the
 * few pieces of Python semantics the validator applies to them.
 */
module PyJson {
  import opened Wrappers

  /** A decoded JSON value. Numbers are integers; floats are not modelled. */
  datatype Json =
    | JNull
    | JBool(b: bool)
    | JInt(i: int)
    | JStr(s: string)
    | JArr(items: seq<Json>)
    | JObj(members: map<string, Json>)

  /** A Python dict with string keys: a token header or a claim set. */
  type Object = map<string, Json>

  /** The name Python gives the type of a decoded value. */
  function TypeName(v: Json): string
  {
    match v
    case JNull => "NoneType"
    case JBool(_) => "bool"
    case JInt(_) => "int"
    case JStr(_) => "str"
    case JArr(_) => "list"
    case JObj(_) => "dict"
  }

  /** `d.get(k)`: the value stored under `k`, or `None`. */
  function Get(d: Object, k: string): (r: Option<Json>)
    ensures r.Some? <==> k in d
    ensures r.Some? ==> r.value == d[k]
  {
    if k in d then Some(d[k]) else None
  }

  /** `d.get(k, fallback)`. */
  function GetOr(d: Object, k: string, fallback: Json): (r: Json)
    ensures k in d ==> r == d[k]
    ensures k !in d ==> r == fallback
  {
    if k in d then d[k] else fallback
  }

  /** `a == b` in Python: structural, except that `True == 1` and `False == 0`. */
  predicate Equal(a: Json, b: Json)
  {
    a == b || BoolEqualsInt(a, b) || BoolEqualsInt(b, a)
  }

  predicate BoolEqualsInt(a: Json, b: Json)
  {
    a.JBool? && b.JInt? && b.i == (if a.b then 1 else 0)
  }

  /** Nothing but the same string is `==` to a string. */
  lemma EqualString(a: Json, s: string)
    ensures Equal(a, JStr(s)) <==> a == JStr(s)
    ensures Equal(JStr(s), a) <==> a == JStr(s)
  {
  }

  /**
   * How an f-string renders an optional decoded value: `None` for an absent
   * value or JSON null, Python's spelling for booleans and integers, the
   * text itself for a string. Lists and dicts get a fixed placeholder.
   */
  function Show(v: Option<Json>): (r: string)
    ensures v.Some? && v.value.JStr? ==> r == v.value.s
    ensures v.None? ==> r == "None"
  {
    match v
    case None => "None"
    case Some(j) =>
      match j
      case JNull => "None"
      case JBool(b) => if b then "True" else "False"
      case JInt(i) => if i < 0 then "-" + Decimal(-i) else Decimal(i)
      case JStr(s) => s
      case JArr(_) => "[...]"
      case JObj(_) => "{...}"
  }

  /** The decimal digits of `n`, most significant first, without leading zeros. */
  function Decimal(n: nat): (r: string)
    ensures 1 <= |r|
    ensures forall k :: 0 <= k < |r| ==> '0' <= r[k] <= '9'
    ensures |r| > 1 ==> r[0] != '0'
    decreases n
  {
    var digit := "0123456789"[n % 10];
    if n < 10 then [digit] else Decimal(n / 10) + [digit]
  }
}
