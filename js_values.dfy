/** The parts of JavaScript's value semantics that the scenario pipeline relies on:
    values produced by JSON.parse, property reads, truthiness, `typeof`, and the
    text an Error object turns into inside a template literal. */
module JsValues {

  datatype Option<+T> = None | Some(value: T)

  datatype Result<+T, +E> = Ok(value: T) | Err(error: E)

  /** A value as JSON.parse produces it. Objects are maps from key to value
      (JSON.parse keeps the last of duplicate keys). Numbers are reals: the model
      does not follow IEEE-754 rounding. */
  datatype Json =
    | JNull
    | JBool(b: bool)
    | JNumber(n: real)
    | JString(s: string)
    | JArray(elems: seq<Json>)
    | JObject(fields: map<string, Json>)

  /** The property read `v.key` on a value that is not null; `None` is `undefined`.
      Only objects carry the keys the pipeline asks for: strings, numbers, booleans
      and arrays have none of them as own or inherited properties. */
  function Prop(v: Json, key: string): Option<Json> {
    match v
    case JObject(fields) => if key in fields then Some(fields[key]) else None
    case _ => None
  }

  /** JavaScript truthiness of a value that may be `undefined`: `undefined`,
      `null`, `false`, `0` and `""` are falsy, every array and object is truthy. */
  predicate Truthy(v: Option<Json>) {
    match v
    case None => false
    case Some(JNull) => false
    case Some(JBool(b)) => b
    case Some(JNumber(n)) => n != 0.0
    case Some(JString(s)) => s != ""
    case Some(JArray(_)) => true
    case Some(JObject(_)) => true
  }

  /** The `typeof` operator: `null` and arrays are both "object". */
  function TypeOf(v: Option<Json>): string {
    match v
    case None => "undefined"
    case Some(JNull) => "object"
    case Some(JBool(_)) => "boolean"
    case Some(JNumber(_)) => "number"
    case Some(JString(_)) => "string"
    case Some(JArray(_)) => "object"
    case Some(JObject(_)) => "object"
  }

  /** `Array.isArray`. */
  predicate IsArray(v: Option<Json>) {
    v.Some? && v.value.JArray?
  }

  /** An Error object: its constructor name ("Error", "TypeError", "SyntaxError")
      and its message. */
  datatype JsError = JsError(name: string, message: string)

  /** `new Error(message)`. */
  function Error(message: string): JsError {
    JsError("Error", message)
  }

  /** `${error}` for an Error object, that is Error.prototype.toString: the
      message alone when the name is empty; otherwise the name, then ": " and
      the message when the message is not empty. */
  function ErrorString(e: JsError): (s: string)
    ensures e.name == "" ==> s == e.message
    ensures |s| >= |e.name| && s[..|e.name|] == e.name
    ensures e.name != "" ==> s != ""
    ensures e.name != "" ==> (|s| == |e.name| <==> e.message == "")
    ensures e.name != "" && e.message != "" ==> s[|e.name|..] == ": " + e.message
  {
    if e.name == "" then e.message
    else if e.message == "" then e.name
    else e.name + ": " + e.message
  }

  /** `s.endsWith(suffix)`: case-sensitive suffix match. */
  predicate EndsWith(s: string, suffix: string) {
    |suffix| <= |s| && s[|s| - |suffix|..] == suffix
  }

  function DigitChar(d: nat): (c: char)
    requires d < 10
    ensures '0' <= c <= '9' && c as int - '0' as int == d
  {
    ('0' as int + d) as char
  }

  /** Decimal digits of a natural number, most significant first. */
  function NatString(n: nat): (s: string)
    ensures |s| >= 1
    ensures forall i :: 0 <= i < |s| ==> '0' <= s[i] <= '9'
  {
    if n < 10 then [DigitChar(n)] else NatString(n / 10) + [DigitChar(n % 10)]
  }

  /** The number a non-empty string of decimal digits spells, most significant
      digit first. */
  function DigitsValue(s: string): nat
    requires forall i :: 0 <= i < |s| ==> '0' <= s[i] <= '9'
    decreases |s|
  {
    if s == [] then 0 else 10 * DigitsValue(s[..|s| - 1]) + (s[|s| - 1] as int - '0' as int)
  }

  /** Reading the digits of n back gives n. */
  lemma {:induction false} NatStringValue(n: nat)
    ensures DigitsValue(NatString(n)) == n
    decreases n
  {
    if n >= 10 {
      NatStringValue(n / 10);
      var s := NatString(n);
      assert s[..|s| - 1] == NatString(n / 10);
    }
  }

  /** An integer as a template literal `${n}` writes it. */
  function IntString(n: int): string {
    if n < 0 then "-" + NatString(-n) else NatString(n)
  }
}
