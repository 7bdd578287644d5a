/**
 * The few JavaScript value rules the adapter depends on: the `||` operator
 * (which replaces `undefined`, `''` and `0` alike) and the rendering of a
 * value inside a template literal.
 */
module Js {
  import opened Wrappers
  import Decimal

  /** A query-string value handed in by the host: text, or a number. */
  datatype Scalar = Str(text: string) | Num(number: int)

  predicate IsTruthy(v: Option<Scalar>) {
    match v
    case None => false
    case Some(Str(t)) => t != ""
    case Some(Num(n)) => n != 0
  }

  /** The text of a value inside a template literal (`${v}`) or `encodeURIComponent(v)`. */
  function Render(v: Scalar): string {
    match v
    case Str(t) => t
    case Num(n) => Decimal.IntToString(n)
  }

  /** `s || fallback` for an optional string. */
  function OrText(s: Option<string>, fallback: string): (r: string)
    ensures r == fallback || (s.Some? && r == s.value && r != "")
    ensures s.Some? && s.value != "" ==> r == s.value
  {
    if s.Some? && s.value != "" then s.value else fallback
  }

  /** `s || null` for an optional string. */
  function TextOrNull(s: Option<string>): (r: Option<string>)
    ensures r.Some? <==> s.Some? && s.value != ""
    ensures r.Some? ==> r == s
  {
    if s.Some? && s.value != "" then s else None
  }

  /** `n || null` for an optional number: a size of 0 reads as "no size". */
  function NumberOrNull(n: Option<int>): (r: Option<int>)
    ensures r.Some? <==> n.Some? && n.value != 0
    ensures r.Some? ==> r == n
  {
    if n.Some? && n.value != 0 then n else None
  }
}
