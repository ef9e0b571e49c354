/**
 * The few JavaScript value rules the dashboard's logic leans on: nullable
 * provider numbers, `Math.round`, the `x || 0` default, string truthiness and
 * the relational comparison `x <= c` when `x` may be null or undefined.
 */
module JsValues {

  /** A provider value that may be absent (JSON `null` or a missing key). */
  datatype Option<+T> = None | Some(value: T) {
    function GetOr(default: T): T {
      match this
      case Some(v) => v
      case None => default
    }
  }

  /** JavaScript truthiness of an optional string: absent and "" are falsy. */
  predicate Truthy(s: Option<string>) {
    s.Some? && s.value != ""
  }

  /** `x || 0` on a nullable number: null and 0 are falsy, so both give 0. */
  function OrZero(x: Option<real>): real {
    if x.Some? && x.value != 0.0 then x.value else 0.0
  }

  /** `n` is what `Math.round` gives for `x`: the nearest integer, halves upward. */
  ghost predicate NearestInt(n: int, x: real) {
    n as real - 0.5 <= x < n as real + 0.5
  }

  /**
   * `Math.round` on a nullable number. `Math.round(null)` converts null to 0
   * first, so an absent value rounds to 0.
   */
  function Round(x: Option<real>): (n: int)
    ensures x.None? ==> n == 0
    ensures x.Some? ==> NearestInt(n, x.value)
  {
    match x
    case None => 0
    case Some(v) => (v + 0.5).Floor
  }

  /** Only one integer is nearest in the sense of `Math.round`. */
  lemma NearestIntIsUnique(x: real, n: int, m: int)
    requires NearestInt(n, x) && NearestInt(m, x)
    ensures n == m
  {
  }

  /**
   * A JavaScript value where a number is expected: `undefined` (a missing
   * record or key), `null` (JSON null) or a number.
   */
  datatype JsNumber = Undefined | Null | Number(value: real)

  /** A provider value once parsed from JSON: absence there is `null`. */
  function FromJson(x: Option<real>): JsNumber {
    match x
    case None => Null
    case Some(v) => Number(v)
  }

  /**
   * `x <= bound` in JavaScript. The comparison converts `x` with ToNumber:
   * null becomes 0, undefined becomes NaN, and NaN compares false.
   */
  predicate AtMost(x: JsNumber, bound: real) {
    match x
    case Undefined => false
    case Null => 0.0 <= bound
    case Number(v) => v <= bound
  }
}
