/** Failure-carrying values shared by every pipeline of the backend.

    The Python code signals failure by raising; every handler in the router
    turns a raised exception into `{"error": str(e)}`.  A `Result` therefore
    keeps exactly the text `str(e)` would show. */
module Results {

  /** A value, or the message of the exception raised while computing it. */
  datatype Result<+T> = Ok(value: T) | Err(message: string) {

    predicate IsFailure() {
      Err?
    }

    function PropagateFailure<U>(): Result<U>
      requires Err?
    {
      Err(message)
    }

    function Extract(): T
      requires Ok?
    {
      value
    }
  }

  /** Python's `None`-or-value, as returned by `preprocess_face` or `dict.get`. */
  datatype Option<+T> = None | Some(value: T) {

    function GetOr(default: T): T {
      match this
      case Some(v) => v
      case None => default
    }
  }
}
