/** Small value types shared by the other modules. */
module Wrappers {

  /** One byte of a file, a registry value or a log line. */
  type byte = x: int | 0 <= x < 256

  /** A value that may be missing; usable with `:-`. */
  datatype Option<+T> = None | Some(value: T) {
    predicate IsFailure() {
      None?
    }

    function PropagateFailure<U>(): Option<U>
      requires None?
    {
      None
    }

    function Extract(): T
      requires Some?
    {
      value
    }
  }
}
