/** The few pieces of JavaScript value semantics the issue controller relies on:
    the JSON values that reach it, `String(v)`, `!v` and a property read. */
module JsValues {

  /** A JSON value as it arrives in a parsed request body or a stored record.
      `Undef` is what reading a missing property yields. */
  datatype Val = Str(s: string) | Bool(b: bool) | Null | Undef

  /** JavaScript's `String(v)`. Only a string or the boolean `true` reads as "true",
      which is what makes the query `open=true` match open issues. */
  function ToStr(v: Val): (r: string)
    ensures v.Str? ==> r == v.s
    ensures r == "true" <==> v == Bool(true) || v == Str("true")
    ensures r == "undefined" <==> v == Undef || v == Str("undefined")
  {
    match v
    case Str(s) => s
    case Bool(b) => if b then "true" else "false"
    case Null => "null"
    case Undef => "undefined"
  }

  /** JavaScript's `!v`: a string is falsy exactly when empty, a boolean exactly
      when false, and `null` and `undefined` always are. */
  predicate Falsy(v: Val)
    ensures v.Str? ==> (Falsy(v) <==> |v.s| == 0)
    ensures v.Bool? ==> (Falsy(v) <==> !v.b)
    ensures !v.Str? && !v.Bool? ==> Falsy(v)
  {
    v == Str("") || v == Bool(false) || v == Null || v == Undef
  }

  /** The property read `m[k]` on a plain object: a missing key yields `undefined`. */
  function Get(m: map<string, Val>, k: string): (r: Val)
    ensures k in m ==> r == m[k]
    ensures r == Undef <==> k !in m || m[k] == Undef
  {
    if k in m then m[k] else Undef
  }
}
