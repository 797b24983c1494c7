/** Option and Result, the failure-carrying values used throughout the model. */
module Wrappers {

  datatype Option<+T> = None | Some(value: T) {
    function GetOr(default: T): T {
      match this
      case Some(v) => v
      case None => default
    }
  }

  datatype Result<+T, +E> = Ok(value: T) | Err(error: E)
}

/**
 * JavaScript value conventions the sources rely on: `v || d` on numbers and
 * the truthiness of optional strings. NaN is not modelled, so a number is
 * falsy exactly when it is zero.
 */
module JsValues {
  import opened Wrappers

  /** `v || d` for a number `v`: the default replaces zero only. */
  function OrDefault(v: real, d: real): (r: real)
    ensures v != 0.0 ==> r == v
    ensures v == 0.0 ==> r == d
  {
    if v == 0.0 then d else v
  }

  /** An optional string is truthy when it is present and not empty. */
  predicate Truthy(s: Option<string>) {
    s.Some? && s.value != ""
  }

  /** An optional number is truthy when it is present and not zero. */
  predicate NumberTruthy(n: Option<real>) {
    n.Some? && n.value != 0.0
  }

  function Max(a: real, b: real): (r: real)
    ensures r >= a && r >= b && (r == a || r == b)
  {
    if a >= b then a else b
  }

  function Min(a: real, b: real): (r: real)
    ensures r <= a && r <= b && (r == a || r == b)
  {
    if a <= b then a else b
  }
}
