/** Option and Result, shared by every module of the model. */
module Wrappers {

  datatype Option<+T> = None | Some(value: T) {
    function GetOr(default: T): T {
      if Some? then value else default
    }
  }

  /** The first of two options that holds a value: Rust's `Option::or`. */
  function Or<T>(first: Option<T>, second: Option<T>): Option<T> {
    if first.Some? then first else second
  }

  /** The last value present. */
  function Latest<T>(values: seq<Option<T>>): Option<T> {
    if values == [] then None else Or(values[|values| - 1], Latest(values[..|values| - 1]))
  }

  /** The first value present. */
  function Earliest<T>(values: seq<Option<T>>): Option<T> {
    if values == [] then None else Or(Earliest(values[..|values| - 1]), values[|values| - 1])
  }

  datatype Result<+R, +E> = Success(value: R) | Failure(error: E)
}
