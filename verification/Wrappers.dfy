/** Outcome types shared by every model: the tools either answer or refuse. */
module Wrappers {
  datatype Option<+T> = None | Some(value: T)

  /** `Refused` stands for any raised exception that leaves the caller without an answer. */
  datatype Result<+T> = Accepted(value: T) | Refused
}
