/**
 * The few JavaScript operators the user module's getters apply to values
 * of type `string | undefined` and `User | undefined`, written out so that
 * the getters can be modelled expression for expression.
 */
module JsValues {
  import opened Wrappers

  /** A string or `undefined`. */
  type JsString = Option<string>

  /** JavaScript truthiness of a string or `undefined`: only a non-empty string is truthy. */
  predicate Truthy(v: JsString) {
    v.Some? && v.value != ""
  }

  /** `v || fallback`: `v` itself when it is truthy, otherwise `fallback`. */
  function Or(v: JsString, fallback: string): string {
    if Truthy(v) then v.value else fallback
  }

  /**
   * `obj && select(obj)` where `obj` is an object or `undefined`: an object is
   * always truthy, so the right operand is taken exactly when `obj` is defined.
   */
  function And<T>(obj: Option<T>, select: T -> JsString): JsString {
    match obj
    case Some(o) => select(o)
    case None => None
  }

  /** The text a template literal produces for `${v}`: `undefined` renders as the word itself. */
  function Interpolate(v: JsString): string {
    match v
    case Some(s) => s
    case None => "undefined"
  }

  /** `(x || '')` on a string or `undefined` yields the string, and "" for `undefined`. */
  lemma OrEmptyIsGetOr(v: JsString)
    ensures Or(v, "") == v.GetOr("")
  {
  }

  /**
   * The fallback of `` ` ${x}` || '' `` is dead: a template literal that begins
   * with a space is a non-empty string, hence truthy, whatever `x` is.
   */
  lemma SpacePrefixedNeverFallsBack(x: JsString, fallback: string)
    ensures Truthy(Some(" " + Interpolate(x)))
    ensures Or(Some(" " + Interpolate(x)), fallback) == " " + Interpolate(x)
  {
  }
}
