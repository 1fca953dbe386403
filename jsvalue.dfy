/** A JSON-like value as the application sees the parsed body of a response,
    together with the two JavaScript operations the response check performs on
    it: reading a property (`v.key`, `v[0]`, `v.length`) and testing truthiness. */
module JsValue {
  import opened Wrappers

  /** `Undefined` never comes out of `JSON.parse`; it is what reading a missing
      property yields. Numbers are integers here. */
  datatype Json =
    | Undefined
    | Null
    | Bool(b: bool)
    | Num(n: int)
    | Str(s: string)
    | Arr(items: seq<Json>)
    | Obj(fields: map<string, Json>)

  /** Reading a property of `null` or `undefined` throws a TypeError. */
  datatype ReadError = CannotRead(ofNull: bool, key: string)

  /** The message V8 gives that TypeError. */
  function ReadErrorMessage(e: ReadError): string {
    "Cannot read properties of " + (if e.ofNull then "null" else "undefined") + " (reading '" + e.key + "')"
  }

  /** `v[key]`. Arrays and strings answer `length` and the index `0` (the only
      index the application reads); every other property of them, and every
      property of a boolean or number, is `undefined`. */
  function Get(v: Json, key: string): (r: Result<Json, ReadError>)
    ensures r.Failure? <==> v.Null? || v.Undefined?
    ensures r.Failure? ==> r.error == CannotRead(v.Null?, key)
  {
    match v
    case Undefined => Failure(CannotRead(false, key))
    case Null => Failure(CannotRead(true, key))
    case Obj(m) => Success(if key in m then m[key] else Undefined)
    case Arr(items) =>
      Success(if key == "length" then Num(|items|)
              else if key == "0" && |items| > 0 then items[0]
              else Undefined)
    case Str(s) =>
      Success(if key == "length" then Num(|s|)
              else if key == "0" && |s| > 0 then Str(s[..1])
              else Undefined)
    case _ => Success(Undefined)
  }

  /** JavaScript truthiness: everything except `undefined`, `null`, `false`, `0`
      and the empty string. */
  predicate Truthy(v: Json) {
    match v
    case Undefined => false
    case Null => false
    case Bool(b) => b
    case Num(n) => n != 0
    case Str(s) => s != ""
    case _ => true
  }

  /** `v > 0`. `null` and `false` compare as 0, `true` as 1, `undefined` and
      objects as NaN; a string or an array (which JavaScript converts to a
      number first) is taken as not positive. */
  predicate GreaterThanZero(v: Json) {
    match v
    case Num(n) => n > 0
    case Bool(b) => b
    case _ => false
  }
}
