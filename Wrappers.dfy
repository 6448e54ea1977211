/** Failure-carrying wrappers shared by the two agents. */
module Wrappers {

  datatype Option<+T> = None | Some(value: T)

  /** The result of a call into a collaborator that may raise: either the value it
      returned or the text of the exception it raised (`str(e)`). */
  datatype Outcome<+T> = Ok(value: T) | Raised(message: string)
}
