/** The JavaScript values that reach the data-access layer as search options,
    limits and property fields, with JavaScript's truthiness and string conversion. */
module Js {
  import opened Decimal

  /** A JavaScript value as far as this layer looks at it. Numbers are whole,
      and their text is exact (as JavaScript's is up to 2^53). */
  datatype JsValue = Undefined | Null | Bool(b: bool) | Num(n: int) | Text(s: string)

  /** JavaScript truthiness: exactly `undefined`, `null`, `false`, `0` and `""`
      are falsy. */
  predicate Truthy(v: JsValue)
    ensures Truthy(v) <==> v !in {Undefined, Null, Bool(false), Num(0), Text("")}
  {
    match v
    case Undefined => false
    case Null => false
    case Bool(b) => b
    case Num(n) => n != 0
    case Text(s) => s != ""
  }

  /** The text a template literal `${v}` produces for `v`: a string as it is,
      a number as decimal text that reads back as the same number. */
  function ToJsString(v: JsValue): (s: string)
    ensures v.Text? ==> s == v.s
    ensures v.Num? ==> IsIntText(s) && ParseInt(s) == v.n
  {
    match v
    case Undefined => "undefined"
    case Null => "null"
    case Bool(b) => if b then "true" else "false"
    case Num(n) => IntToStringRoundTrip(n); IntToString(n)
    case Text(s) => s
  }
}
