/** Types every other module shares. */
module Prelude {

  datatype Option<+T> = None | Some(value: T)

  datatype Result<+T, +E> = Success(value: T) | Failure(error: E)

  /** Surrogate keys (uuid and bigint columns). */
  type Id = nat

  /** The roles of the `actor_role` enum; casting any other role to it fails. */
  predicate IsActorRole(role: string) {
    role in {"as_admin", "as_staff", "client_admin", "client_user", "system"}
  }
}
