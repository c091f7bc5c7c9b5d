/** Failure-compatible wrappers used by every codec: `Option` stands for a
    Java reference that may be null, `Result` for a call that either returns
    a value or throws. Exception classes are not distinguished. */
module Wrappers {

  /** A nullable Java reference: `None` is `null`. */
  datatype Option<+T> = None | Some(value: T) {

    /** The value, or `default` when this is `None`. */
    function GetOr(default: T): T {
      match this
      case Some(v) => v
      case None => default
    }
  }

  /** The outcome of a Java call that may throw: `Fail` is any exception. */
  datatype Result<+T> = Ok(value: T) | Fail {

    predicate IsFailure() {
      Fail?
    }

    function PropagateFailure<U>(): Result<U>
      requires Fail?
    {
      Fail
    }

    function Extract(): T
      requires Ok?
    {
      value
    }
  }
}
