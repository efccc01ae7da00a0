/** Shared vocabulary: identifiers, optional values and results. */
module Basics {

  /** Identifiers (order, item, user, restaurant, charge and refund ids) are strings. */
  type Id = string

  /** A value that may be absent (a JavaScript `undefined` field, say). */
  datatype Option<+T> = None | Some(value: T)

  /** The result of a route: either the value it answers with, or the error it hands
      to the next error-handling middleware. */
  datatype Result<+T, +E> = Ok(value: T) | Fail(error: E)

  /** An error reported by a collaborator this model does not see (the relational store
      client, an async wrapper), carried along opaquely. */
  datatype Fault = Fault(description: string)
}
