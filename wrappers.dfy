/** Small datatypes for a null reference and for a thrown exception. */
module Wrappers {

  /** `None` stands for a Java `null` reference. */
  datatype Option<+T> = None | Some(value: T)

  /** `Pass` is a normal return; `Fail(e)` is a thrown exception carrying `e`. */
  datatype Outcome<+E> = Pass | Fail(error: E)
}
