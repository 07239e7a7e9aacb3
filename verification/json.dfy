/**
 * JSON values as JavaScript sees them after `JSON.parse`, together with the
 * few property-access and truthiness rules of the language that the modelled
 * code relies on.
 */
module Json {
  import opened Wrappers

  /** A JSON value. Numbers are JavaScript doubles, modelled as reals. */
  datatype Json =
    | JNull
    | JBool(b: bool)
    | JNumber(n: real)
    | JString(s: string)
    | JArray(items: seq<Json>)
    | JObject(fields: map<string, Json>)

  /** The result of a property read `v.key` or `v[key]` on a JSON value. */
  datatype Access = Undefined | Value(v: Json) | TypeError

  /**
   * `v.key` in JavaScript: reading a property of `null` throws a TypeError,
   * a missing property or a property of a primitive or an array reads as
   * `undefined`. None of the keys the model reads (`choices`, `message`,
   * `content`, `front`, `back`, `text`, `timestamp`) lives on a prototype.
   */
  function Member(v: Json, key: string): (a: Access)
    ensures a.TypeError? <==> v.JNull?
    ensures a.Value? <==> v.JObject? && key in v.fields
    ensures a.Value? ==> a.v == v.fields[key]
  {
    match v
    case JNull => TypeError
    case JObject(fields) => if key in fields then Value(fields[key]) else Undefined
    case _ => Undefined
  }

  /**
   * `v[0]` in JavaScript: the first element of an array, the first character
   * (as a one-character string) of a string, the property "0" of an object,
   * `undefined` for other primitives, and a TypeError for `null`.
   */
  function First(v: Json): (a: Access)
    ensures a.TypeError? <==> v.JNull?
    ensures v.JArray? ==> (a.Value? <==> |v.items| > 0)
    ensures v.JArray? && a.Value? ==> a.v == v.items[0]
  {
    match v
    case JNull => TypeError
    case JArray(items) => if |items| > 0 then Value(items[0]) else Undefined
    case JString(s) => if |s| > 0 then Value(JString(s[..1])) else Undefined
    case JObject(fields) => if "0" in fields then Value(fields["0"]) else Undefined
    case _ => Undefined
  }

  /** JavaScript truthiness of a JSON value (`NaN` does not occur in JSON). */
  predicate Truthy(v: Json) {
    match v
    case JNull => false
    case JBool(b) => b
    case JNumber(n) => n != 0.0
    case JString(s) => s != ""
    case _ => true
  }

  /** Truthiness of a property read; `undefined` is falsy. */
  predicate TruthyAccess(a: Access)
    requires !a.TypeError?
  {
    a.Value? && Truthy(a.v)
  }

  /** The type names that zod reports in "Expected ..., received ..." issues. */
  function TypeName(v: Json): string {
    match v
    case JNull => "null"
    case JBool(_) => "boolean"
    case JNumber(_) => "number"
    case JString(_) => "string"
    case JArray(_) => "array"
    case JObject(_) => "object"
  }

  /** The falsy JSON values are exactly null, false, 0 and the empty string. */
  lemma FalsyValues(v: Json)
    ensures !Truthy(v) <==> v == JNull || v == JBool(false) || v == JNumber(0.0) || v == JString("")
  {
  }
}
