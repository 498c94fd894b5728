/** Optional values and results, used wherever the source returns `Option` or `Result`. */
module Wrappers {
  /** An optional value; `:-` on it stops at `None`, the way a panic stops a Rust function. */
  datatype Option<T> = None | Some(value: T)
  {
    predicate IsFailure() {
      None?
    }

    function PropagateFailure<U>(): Option<U>
      requires None?
    {
      None
    }

    function Extract(): T
      requires Some?
    {
      value
    }
  }

  datatype Result<T, E> = Ok(value: T) | Err(error: E)
}
