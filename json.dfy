/**
 * The untyped JSON values that the services exchange (`any` in the sources),
 * JavaScript truthiness and optional-chaining lookup over them, and the
 * `JSON.stringify` / `JSON.parse` pair taken as an abstract, lawful codec.
 */
module Json {
  import opened Wrappers

  type Byte = x: int | 0 <= x < 256

  /** A JSON value. Numbers are integers here; floating-point values are not modelled. */
  datatype Json =
    | JNull
    | JBool(b: bool)
    | JNum(n: int)
    | JStr(s: string)
    | JArr(items: seq<Json>)
    | JObj(fields: map<string, Json>)

  /** JavaScript truthiness of a present value: `null`, `false`, `0` and `''` are falsy. */
  predicate Truthy(j: Json) {
    match j
    case JNull => false
    case JBool(b) => b
    case JNum(n) => n != 0
    case JStr(s) => s != ""
    case JArr(_) => true
    case JObj(_) => true
  }

  /** Truthiness of a value that may be `undefined` (`None`), which is falsy. */
  predicate TruthyOpt(j: Option<Json>) {
    j.Some? && Truthy(j.value)
  }

  /** `j?.key`: the property of an object, `undefined` for a missing key or a non-object. */
  function Get(j: Option<Json>, key: string): (r: Option<Json>)
    ensures r.Some? <==> j.Some? && j.value.JObj? && key in j.value.fields
    ensures r.Some? ==> r.value == j.value.fields[key]
  {
    match j
    case Some(JObj(m)) => if key in m then Some(m[key]) else None
    case _ => None
  }

  /** `a || b` on possibly-undefined values: `a` when it is truthy, else `b`. */
  function Or(a: Option<Json>, b: Json): (r: Json)
    ensures TruthyOpt(a) ==> r == a.value
    ensures !TruthyOpt(a) ==> r == b
  {
    if TruthyOpt(a) then a.value else b
  }

  /** `typeof j === 'string'` with a non-empty value: the text of a truthy string. */
  function TruthyString(j: Option<Json>): (r: Option<string>)
    ensures r.Some? <==> j.Some? && j.value.JStr? && j.value.s != ""
    ensures r.Some? ==> j == Some(JStr(r.value))
  {
    match j
    case Some(JStr(s)) => if s != "" then Some(s) else None
    case _ => None
  }

  /**
   * `JSON.stringify` followed by UTF-8 encoding, and UTF-8 decoding followed by
   * `JSON.parse` (`None` where `JSON.parse` throws). Both are given, not defined.
   */
  datatype JsonText = JsonText(serialize: Json -> seq<Byte>, parse: seq<Byte> -> Option<Json>)

  /**
   * What the model assumes of the runtime's JSON: serialising never gives the
   * empty text, and parsing the serialised text gives back the value.
   */
  ghost predicate Lawful(codec: JsonText) {
    forall j :: |codec.serialize(j)| > 0 && codec.parse(codec.serialize(j)) == Some(j)
  }

  /** The lawful codec is injective: two values with the same text are equal. */
  lemma LawfulIsInjective(codec: JsonText, a: Json, b: Json)
    requires Lawful(codec)
    ensures codec.serialize(a) == codec.serialize(b) ==> a == b
  {
    assert codec.parse(codec.serialize(a)) == Some(a);
    assert codec.parse(codec.serialize(b)) == Some(b);
  }
}
