/** Decoded JSON values with Python's truthiness and equality. */
module Json {

  /**
   * A decoded JSON value. Python's `None` is `JNull`: `json.loads("null")`
   * yields `None`, so the two cannot be told apart by the code modelled here.
   */
  datatype Json =
    | JNull
    | JBool(b: bool)
    | JInt(i: int)
    | JString(s: string)
    | JArray(items: seq<Json>)
    | JObject(fields: map<string, Json>)

  /** Python's `bool(x)` on a decoded JSON value. */
  predicate Truthy(j: Json) {
    match j
    case JNull => false
    case JBool(b) => b
    case JInt(i) => i != 0
    case JString(s) => s != ""
    case JArray(items) => items != []
    case JObject(fields) => fields != map[]
  }

  /**
   * Python's `==` on decoded JSON values: `True == 1` and `False == 0`, and
   * otherwise structural equality.
   */
  predicate PyEq(a: Json, b: Json) {
    match (a, b)
    case (JBool(x), JInt(n)) => (if x then 1 else 0) == n
    case (JInt(n), JBool(x)) => (if x then 1 else 0) == n
    case _ => a == b
  }

  /** Python's `x in xs` on a list. */
  predicate PyIn(x: Json, xs: seq<Json>) {
    exists i :: 0 <= i < |xs| && PyEq(x, xs[i])
  }

  /** Membership in a concatenation `a + b` is membership in either list. */
  lemma PyInConcat(x: Json, a: seq<Json>, b: seq<Json>)
    ensures PyIn(x, a + b) <==> PyIn(x, a) || PyIn(x, b)
  {
    if PyIn(x, a + b) {
      var i :| 0 <= i < |a + b| && PyEq(x, (a + b)[i]);
      if i >= |a| {
        assert b[i - |a|] == (a + b)[i];
      }
    }
    if PyIn(x, a) {
      var i :| 0 <= i < |a| && PyEq(x, a[i]);
      assert (a + b)[i] == a[i];
    }
    if PyIn(x, b) {
      var i :| 0 <= i < |b| && PyEq(x, b[i]);
      assert (a + b)[|a| + i] == b[i];
    }
  }

  /** `fields.get(key, default)` on a decoded JSON object. */
  function Get(fields: map<string, Json>, key: string, default: Json): (v: Json)
    ensures key in fields ==> v == fields[key]
    ensures key !in fields ==> v == default
  {
    if key in fields then fields[key] else default
  }
}
