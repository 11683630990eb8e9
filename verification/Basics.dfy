/** Shared vocabulary of the model: optional values, files and durable writes. */
module Basics {

  datatype Option<+T> = None | Some(value: T)

  /** A file as its reader finds it. `Unreadable` content fails its schema. */
  datatype File<+T> = Absent | Unreadable | Content(value: T)

  /** One atomic replace. A write that raises may or may not have changed the
      disk already: the directory sync comes after the rename. */
  datatype WriteFault = Clean | FailsBefore | FailsAfter

  function Put<T>(f: File<T>, v: T, fault: WriteFault): File<T> {
    if fault == FailsBefore then f else Content(v)
  }
}
