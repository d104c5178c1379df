/** Option and Result values standing in for JavaScript's `null`/`undefined` and thrown errors. */
module Wrappers {

  datatype Option<+T> = None | Some(value: T) {

    /** The wrapped value, or `default` when absent (JavaScript's `x ?? default`). */
    function GetOr(default: T): T {
      match this
      case Some(v) => v
      case None => default
    }
  }

  /** `Failure` is a thrown `Error` whose message is `error`. */
  datatype Result<+R, +E> = Success(value: R) | Failure(error: E)

  /**
   * JavaScript's `option || fallback` for a numeric option: an absent key and
   * a configured 0 both give the fallback.
   */
  function IntOr(option: Option<int>, fallback: int): (r: int)
    ensures option.None? || option == Some(0) ==> r == fallback
    ensures option.Some? && option.value != 0 ==> r == option.value
  {
    if option.Some? && option.value != 0 then option.value else fallback
  }

  function RealOr(option: Option<real>, fallback: real): (r: real)
    ensures option.None? || option == Some(0.0) ==> r == fallback
    ensures option.Some? && option.value != 0.0 ==> r == option.value
  {
    if option.Some? && option.value != 0.0 then option.value else fallback
  }

}
