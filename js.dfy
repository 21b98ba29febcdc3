/**
 * The JavaScript values the controllers read from configuration, the query
 * string, the session and the identity provider's JSON answers.
 */
module Js {

  /** undefined, null, a boolean or a string (numbers, arrays and objects are not modelled). */
  datatype Json = Undefined | Null | Bool(b: bool) | Str(s: string)

  /** A plain object such as the plugin config or `response.data`. */
  type Dict = map<string, Json>

  /** `obj[key]`: a missing property reads as undefined. */
  function Get(d: Dict, key: string): (v: Json)
    ensures key !in d ==> v == Undefined
    ensures key in d ==> v == d[key]
  {
    if key in d then d[key] else Undefined
  }

  /** JavaScript truthiness (`if (x)`, `!x`). */
  predicate Truthy(v: Json)
  {
    match v
    case Undefined => false
    case Null => false
    case Bool(b) => b
    case Str(s) => s != ""
  }

  /**
   * The values a gate or a required config key rejects: undefined, null,
   * false and the empty string; every other value passes.
   */
  lemma FalsyValues(v: Json)
    ensures !Truthy(v) <==> v == Undefined || v == Null || v == Bool(false) || v == Str("")
  {
  }

  /** `String(v)`, as done by template literals and `URLSearchParams.append`. */
  function ToStr(v: Json): (s: string)
    ensures v.Str? ==> s == v.s
    ensures v == Undefined ==> s == "undefined"
  {
    match v
    case Undefined => "undefined"
    case Null => "null"
    case Bool(b) => if b then "true" else "false"
    case Str(s) => s
  }
}
