/** The JSON values that travel between the DM side and the players'
    display, and the Python operations the display applies to them once
    `json.loads` has turned them into dicts, lists, strings and numbers. */
module Json {
  import opened Wrappers
  import opened Text

  /** A decoded JSON value: `None`, `bool`, `int`, `float`, `str`, `list`
      or `dict`. */
  datatype Json =
    | JNull
    | JBool(b: bool)
    | JInt(i: int)
    | JReal(r: real)
    | JStr(s: string)
    | JList(items: seq<Json>)
    | JObject(fields: map<string, Json>)

  /** `d.get(key, default)`. */
  function Get(d: map<string, Json>, key: string, default: Json): (r: Json)
    ensures key in d ==> r == d[key]
    ensures key !in d ==> r == default
  {
    if key in d then d[key] else default
  }

  /** Python's `bool(x)`. */
  predicate Truthy(j: Json) {
    match j
    case JNull => false
    case JBool(b) => b
    case JInt(i) => i != 0
    case JReal(r) => r != 0.0
    case JStr(s) => s != []
    case JList(items) => items != []
    case JObject(fields) => fields != map[]
  }

  /** The number `x` stands for when `isinstance(x, int)` holds (a `bool`
      is an `int` in Python), None otherwise. */
  function AsInt(j: Json): (r: Option<int>)
    ensures r.Some? <==> j.JInt? || j.JBool?
    ensures j.JInt? ==> r == Some(j.i)
  {
    match j
    case JInt(i) => Some(i)
    case JBool(b) => Some(if b then 1 else 0)
    case _ => None
  }

  /** Python's `int(x)`: ints and bools as they are, floats truncated
      toward zero, strings parsed (ValueError when they do not hold an
      integer), anything else a TypeError. */
  function IntOf(j: Json): (r: Result<int>)
    ensures AsInt(j).Some? ==> r == Ok(AsInt(j).value)
    ensures r.Fail? ==> (r.error == ValueError <==> j.JStr?)
    ensures j.JStr? ==> (r.Fail? <==> ParseInt(j.s).None?)
    ensures j.JNull? || j.JList? || j.JObject? ==> r == Fail(TypeError)
  {
    match j
    case JInt(i) => Ok(i)
    case JBool(b) => Ok(if b then 1 else 0)
    case JReal(x) => Ok(if x >= 0.0 then x.Floor else -((-x).Floor))
    case JStr(s) => if ParseInt(s).Some? then Ok(ParseInt(s).value) else Fail(ValueError)
    case _ => Fail(TypeError)
  }

  /** `int(str(n))` is `n`: the round the DM side writes comes back as it
      was. */
  lemma IntOfDecimal(n: int)
    ensures IntOf(JStr(IntToString(n))) == Ok(n)
  {
    IntToStringRoundTrip(n);
  }

  /** Truncation of floats: `int(x)` lies between 0 and `x`, less than one
      away from it. */
  lemma IntOfRealTruncates(x: real)
    ensures var r := IntOf(JReal(x));
            r.Ok? && (x >= 0.0 ==> 0.0 <= r.value as real <= x < r.value as real + 1.0)
            && (x < 0.0 ==> x <= r.value as real <= 0.0 && r.value as real - 1.0 < x)
  {
  }

  /** `str(x)` for a string or None. */
  function TextOf(j: Json): (r: string)
    requires StringOrNull(j)
    ensures j.JStr? ==> r == j.s
  {
    if j.JStr? then j.s else "None"
  }

  /** A key or label the display formats: a string, or missing (None). */
  predicate StringOrNull(j: Json) {
    j.JNull? || j.JStr?
  }
}
