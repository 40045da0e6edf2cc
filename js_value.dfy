/**
 * The JavaScript values the core passes around: parsed JSON payloads, settings
 * records and product records.  `undefined` is not a value here; an absent
 * member is `None`.
 */
module JsValue {
  import opened Wrappers
  import opened JsText

  /** A JSON value.  Numbers are integers: every number the core reads is a count,
      a status code or a small index. */
  datatype Json =
    | JNull
    | JBool(b: bool)
    | JNum(n: int)
    | JStr(s: string)
    | JArr(items: seq<Json>)
    | JObj(fields: map<string, Json>)

  /** JavaScript truthiness of a defined value (ECMAScript ToBoolean). */
  predicate Truthy(v: Json) {
    match v
    case JNull => false
    case JBool(b) => b
    case JNum(n) => n != 0
    case JStr(s) => s != ""
    case JArr(_) => true
    case JObj(_) => true
  }

  /** The falsy values of ECMAScript ToBoolean that JSON can hold: null, false, 0 and
      the empty string. */
  lemma FalsyValues(v: Json)
    ensures !Truthy(v) <==> v == JNull || v == JBool(false) || v == JNum(0) || v == JStr("")
  {
  }

  /** Truthiness of a possibly-undefined value: `undefined` is falsy. */
  predicate TruthyOpt(v: Option<Json>) {
    v.Some? && Truthy(v.value)
  }

  /** Reading member `key` of a value that is not null: an own member of an
      object, `undefined` for everything else. */
  function Member(v: Json, key: string): (r: Option<Json>)
    ensures r.Some? <==> v.JObj? && key in v.fields
    ensures r.Some? ==> r.value == v.fields[key]
  {
    if v.JObj? && key in v.fields then Some(v.fields[key]) else None
  }

  /** Optional chaining `v?.key`: `undefined` when `v` is null or undefined. */
  function OptMember(v: Option<Json>, key: string): (r: Option<Json>)
    ensures v.None? || v == Some(JNull) ==> r.None?
    ensures v.Some? && v.value != JNull ==> r == Member(v.value, key)
  {
    if v.None? || v.value == JNull then None else Member(v.value, key)
  }

  /** The logical or `a || b`: `a` when it is truthy, `b` otherwise. */
  function Or(a: Option<Json>, b: Option<Json>): (r: Option<Json>)
    ensures TruthyOpt(a) ==> r == a
    ensures !TruthyOpt(a) ==> r == b
    ensures TruthyOpt(r) <==> TruthyOpt(a) || TruthyOpt(b)
  {
    if TruthyOpt(a) then a else b
  }

  /** `a || fallback` with a defined fallback: always defined, truthy whenever `a` is. */
  function OrElse(a: Option<Json>, fallback: Json): (r: Json)
    ensures TruthyOpt(a) ==> Some(r) == a
    ensures !TruthyOpt(a) ==> r == fallback
  {
    if TruthyOpt(a) then a.value else fallback
  }

  /** Strict equality `v === JStr(s)` against a string literal. */
  predicate IsStr(v: Option<Json>, s: string) {
    v == Some(JStr(s))
  }

  /** The decimal numeral of an integer, with a minus sign when negative. */
  function IntToString(n: int): (s: string)
    ensures n >= 0 ==> s == NatToString(n)
    ensures n < 0 ==> s == "-" + NatToString(-n)
  {
    if n < 0 then "-" + NatToString(-n) else NatToString(n)
  }

  /** ECMAScript ToString of a value, as template literals and `join` print it: arrays
      print their elements joined by commas with null elements empty, objects print
      `[object Object]`. */
  function Text(v: Json): (s: string)
    ensures v.JStr? ==> s == v.s
    ensures v.JNum? && v.n >= 0 ==> s == NatToString(v.n)
    decreases v
  {
    match v
    case JNull => "null"
    case JBool(b) => if b then "true" else "false"
    case JNum(n) => IntToString(n)
    case JStr(s) => s
    case JArr(items) =>
      Join(seq(|items|, i requires 0 <= i < |items| => if items[i] == JNull then "" else Text(items[i])), ',')
    case JObj(_) => "[object Object]"
  }

  /** ToString of a possibly-undefined value: `undefined` prints as `undefined`. */
  function TextOpt(v: Option<Json>): (s: string)
    ensures v.Some? ==> s == Text(v.value)
  {
    if v.None? then "undefined" else Text(v.value)
  }
}
