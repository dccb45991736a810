/** Option, Result and the abstract digest shared by every other module. */
module Wrappers {

  datatype Option<+T> = None | Some(value: T)

  /** A transaction that either commits a value or raises an error and rolls back. */
  datatype Result<+T, +E> = Ok(value: T) | Err(error: E)

  /** SHA-256 digests of canonical JSON, taken to be injective on the fields they digest. */
  datatype Hash = Sha256(fields: seq<string>)

  /** Instants and durations, in seconds. */
  type Time = real
}
