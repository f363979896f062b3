/** Results that carry failures, shared by every module. */
module Wrappers {

  datatype Option<+T> = None | Some(value: T) {
    predicate IsFailure() {
      None?
    }

    function PropagateFailure<U>(): Option<U>
      requires None?
    {
      None
    }

    function Extract(): T
      requires Some?
    {
      value
    }
  }

  datatype Result<+T, +E> = Success(value: T) | Failure(error: E)

  /** The outcome of a piece of work that the process running it may not survive.
      `:-` on a Call stops the caller at a crash, so a method that returns Crashed
      has left the shared state exactly as the crash found it. */
  datatype Call<+T> = Crashed | Replied(value: T) {
    predicate IsFailure() {
      Crashed?
    }

    function PropagateFailure<U>(): Call<U>
      requires Crashed?
    {
      Crashed
    }

    function Extract(): T
      requires Replied?
    {
      value
    }
  }

  predicate Succeeded<T, E>(r: Call<Result<T, E>>) {
    r.Replied? && r.value.Success?
  }
}
