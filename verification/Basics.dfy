/** Shared vocabulary: optional values, the HTTP-shaped failures the services raise, and the
  * either-way block test. */
module Basics {

  datatype Option<+T> = None | Some(value: T)

  datatype Error = NotFound | BadRequest | Forbidden | Conflict | Failure

  datatype Result<+T> = Ok(value: T) | Err(error: Error)

  // A block row in either direction between two different users.
  predicate BlockedEitherWay<T(==)>(blocks: set<(T, T)>, viewer: T, author: T) {
    viewer != author && ((viewer, author) in blocks || (author, viewer) in blocks)
  }
}
