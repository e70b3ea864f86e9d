/** Decoded JSON as the Python code sees it: `json.loads` / `Response.json()` values,
    their truthiness, `dict.get`, the `or` operator, iteration and `str()`. */
module JsonValues {
  import opened Base
  import opened Text

  /** A JSON value. Objects keep their members in document order; member names are
      taken to be distinct (json.loads would keep only the last of a repeated name). */
  datatype Json =
    | JNull
    | JBool(b: bool)
    | JInt(n: int)
    | JStr(s: string)
    | JArray(items: seq<Json>)
    | JObject(members: seq<(string, Json)>)

  /** Python truthiness: None, False, 0, "", [] and {} are false. */
  predicate Truthy(v: Json) {
    match v
    case JNull => false
    case JBool(b) => b
    case JInt(n) => n != 0
    case JStr(s) => s != ""
    case JArray(xs) => xs != []
    case JObject(ms) => ms != []
  }

  /** The value stored under `key`, if any. */
  function Lookup(ms: seq<(string, Json)>, key: string): (r: Option<Json>)
    ensures r.Some? <==> exists i :: 0 <= i < |ms| && ms[i].0 == key
    ensures r.Some? ==> exists i :: 0 <= i < |ms| && ms[i] == (key, r.value)
  {
    if ms == [] then None
    else if ms[0].0 == key then Some(ms[0].1)
    else
      var r := Lookup(ms[1..], key);
      assert forall i | 0 <= i < |ms| - 1 :: ms[1..][i] == ms[i + 1];
      r
  }

  /** `d.get(key)`: `None` when the key is absent. */
  function Get(ms: seq<(string, Json)>, key: string): Json {
    Lookup(ms, key).GetOr(JNull)
  }

  /** `d.get(key, default)`. */
  function GetOr(ms: seq<(string, Json)>, key: string, default: Json): Json {
    Lookup(ms, key).GetOr(default)
  }

  /** Python's `a or b`: `a` when it is truthy, else `b`. */
  function Or(a: Json, b: Json): Json {
    if Truthy(a) then a else b
  }

  /** What `for x in v` visits: the items of a list, the characters of a string (each a
      one-character string), the keys of a dict; anything else is not iterable. */
  function Iterate(v: Json): (r: Result<seq<Json>>)
    ensures r.Ok? <==> (v.JArray? || v.JStr? || v.JObject?)
    ensures r.Ok? ==> (|r.value| == 0 <==> !Truthy(v))
    ensures v.JArray? ==> r == Ok(v.items)
  {
    match v
    case JArray(xs) => Ok(xs)
    case JStr(s) => Ok(seq(|s|, i requires 0 <= i < |s| => JStr([s[i]])))
    case JObject(ms) => Ok(seq(|ms|, i requires 0 <= i < |ms| => JStr(ms[i].0)))
    case _ => Err(TypeError)
  }

  /** `str(v)` (and `f"{v}"`). Scalars are rendered as Python renders them; lists and dicts
      get a simplified `repr` that does not quote or escape the strings inside them. */
  function PyStr(v: Json): string
    decreases v, 1
  {
    match v
    case JNull => "None"
    case JBool(b) => if b then "True" else "False"
    case JInt(n) => IntToString(n)
    case JStr(s) => s
    case JArray(xs) => "[" + JoinItems(v, xs) + "]"
    case JObject(ms) => "{" + JoinMembers(v, ms) + "}"
  }

  function JoinItems(parent: Json, xs: seq<Json>): string
    requires forall i | 0 <= i < |xs| :: xs[i] < parent
    decreases parent, 0, |xs|
  {
    if xs == [] then ""
    else if |xs| == 1 then PyStr(xs[0])
    else PyStr(xs[0]) + ", " + JoinItems(parent, xs[1..])
  }

  function JoinMembers(parent: Json, ms: seq<(string, Json)>): string
    requires forall i | 0 <= i < |ms| :: ms[i].1 < parent
    decreases parent, 0, |ms|
  {
    if ms == [] then ""
    else
      var m := ms[0].0 + ": " + PyStr(ms[0].1);
      if |ms| == 1 then m else m + ", " + JoinMembers(parent, ms[1..])
  }
}
