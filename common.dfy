/** Shared vocabulary: optional values, identifiers and HTTP replies. */
module Common {

  datatype Option<T> = None | Some(value: T)

  /** Database identifiers (ObjectIds) are modelled as natural numbers. */
  type ProductId = nat
  type UserId = nat

  /** What a route handler answers: a success status, or an error status with its message. */
  datatype Reply = Success(code: nat) | Failure(code: nat, message: string)
}
