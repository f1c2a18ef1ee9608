/** Option and Result, used for parsed form fields, optional JSON members and error returns. */
module Wrappers {

  datatype Option<+T> = None | Some(value: T)

  datatype Result<+R, +E> = Success(value: R) | Failure(error: E)

  /** `parseFloat(field) || 0`: an unparseable (NaN) field and a zero both give 0. */
  function OrZero(field: Option<real>): (r: real)
    ensures field.None? ==> r == 0.0
    ensures field.Some? ==> r == field.value
  {
    match field
    case None => 0.0
    case Some(v) => v
  }

  /** `x || fallback` for an optional number: a missing value or a zero falls back. */
  function OrElse(field: Option<real>, fallback: real): (r: real)
    ensures (field.None? || field.value == 0.0) ==> r == fallback
    ensures (field.Some? && field.value != 0.0) ==> r == field.value
  {
    if field.Some? && field.value != 0.0 then field.value else fallback
  }

  function Max(a: real, b: real): (m: real)
    ensures m >= a && m >= b && (m == a || m == b)
  {
    if a >= b then a else b
  }
}
