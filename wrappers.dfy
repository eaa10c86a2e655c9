/** Option and Result, the two failure-compatible wrappers used throughout the model.
    `Err` stands for a Python exception being raised; which exception it was does not
    matter to any caller, since every handler in the source catches all of them alike. */
module Wrappers {

  datatype Option<+T> = None | Some(value: T) {
    function GetOr(default: T): T {
      match this
      case Some(v) => v
      case None => default
    }

    /** A missing value as a raised exception. */
    function ToResult(): (r: Result<T>)
      ensures r.Ok? <==> Some?
      ensures Some? ==> r.value == value
    {
      match this
      case Some(v) => Ok(v)
      case None => Err
    }
  }

  datatype Result<+T> = Ok(value: T) | Err {
    predicate IsFailure() {
      Err?
    }

    function PropagateFailure<U>(): Result<U>
      requires Err?
    {
      Err
    }

    function Extract(): T
      requires Ok?
    {
      value
    }
  }
}
