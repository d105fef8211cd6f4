/**
 * The two error carriers the library returns: `Option` (from `try_new`,
 * `intersection`, the Box3 transform) and `Result` (from the homogeneous
 * projections and `try_from_points`).
 */
module Wrappers {
  datatype Option<T> = None | Some(value: T)

  datatype Result<T, E> = Ok(value: T) | Err(error: E)
}
