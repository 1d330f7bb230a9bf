/**
 * How the components read loosely-typed JSON fields and turn them into text:
 * JavaScript truthiness, the `||` fallback, optional indexing `xs?.[0]`, and
 * the two different ways an absent value is written: a JSX child `{v}`
 * renders nothing, a template literal `${v}` writes "undefined".
 */
module JsValues {
  import opened Wrappers
  import opened Text

  /** A primitive JSON value: a string or a (whole) number. */
  datatype Scalar = Str(s: string) | Num(n: int)

  /** Truthiness of an optional primitive: undefined, "" and 0 are falsy. */
  predicate Truthy(v: Option<Scalar>)
  {
    match v
    case None => false
    case Some(Str(s)) => s != ""
    case Some(Num(n)) => n != 0
  }

  /** Truthiness of an optional string field. */
  predicate TruthyStr(v: Option<string>)
  {
    v.Some? && v.value != ""
  }

  /** `String(x)`: a string as itself, a number in decimal. */
  function ScalarText(x: Scalar): (r: string)
    ensures x.Str? ==> r == x.s
    ensures x.Num? ==> r == IntToString(x.n)
  {
    match x
    case Str(s) => s
    case Num(n) => IntToString(n)
  }

  /** `v || fallback` on an optional string field. */
  function OrElse(v: Option<string>, fallback: string): (r: string)
    ensures TruthyStr(v) ==> r == v.value
    ensures !TruthyStr(v) ==> r == fallback
    ensures fallback != "" ==> r != ""
  {
    if TruthyStr(v) then v.value else fallback
  }

  /** `xs?.[0]`: the first element, undefined when the list is absent or empty. */
  function First<T>(xs: Option<seq<T>>): (r: Option<T>)
    ensures r.Some? <==> xs.Some? && |xs.value| > 0
    ensures r.Some? ==> r.value == xs.value[0]
  {
    if xs.Some? && |xs.value| > 0 then Some(xs.value[0]) else None
  }

  /** `{v}` as a JSX child, for a string field: undefined renders as nothing. */
  function JsxStr(v: Option<string>): string
  {
    match v
    case None => ""
    case Some(s) => s
  }

  /** `{v}` as a JSX child, for a primitive field: a number, 0 included, renders its digits. */
  function JsxScalar(v: Option<Scalar>): string
  {
    match v
    case None => ""
    case Some(x) => ScalarText(x)
  }

  /** `${v}` inside a template literal: undefined is written out as "undefined". */
  function TemplateStr(v: Option<string>): string
  {
    match v
    case None => "undefined"
    case Some(s) => s
  }
}
