/** Values exchanged with the authentication library the modals call into.
    Its functions are not part of this model: each call's outcome is an
    input to the submit handlers. */
module Collaborators {

  datatype Option<+T> = None | Some(value: T)

  /** What a call into the library did: it returned a value, or it threw. */
  datatype Reply<+T> = Returned(value: T) | Threw

  /** `x || fallback` in the source, for an optional field. */
  function OrElse<T>(o: Option<T>, fallback: T): T
  {
    match o
    case Some(v) => v
    case None => fallback
  }
}
