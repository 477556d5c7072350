/** Small value wrappers shared by every module of the model. */
module Wrappers {

  /** A value that may be absent: `undefined` on the JavaScript side. */
  datatype Option<+T> = None | Some(value: T)

  /** How an awaited call settles: the promise resolves with a value, or it
      rejects (the collaborator threw). Every collaborator call can reject. */
  datatype Settled<+T> = Rejected | Resolved(value: T)

  /** JavaScript truthiness of an optional string: neither `undefined` nor `""`. */
  predicate Truthy(m: Option<string>) {
    m.Some? && m.value != ""
  }
}
