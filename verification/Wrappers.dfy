/** Optional values, results, and the two kinds of errors. */
module Wrappers {

  datatype Option<+T> = None | Some(value: T)

  /** A DomainError would only be repeated by a retry; any other error may pass. */
  datatype Error =
    | VersionConflict
    | DomainError(code: string)
    | Failure(what: string)

  /** What a loaded stream without events yields; it is a domain error. */
  const ErrNotFound := DomainError("not_found")

  datatype Result<+T> = Ok(value: T) | Err(error: Error)

  /** Batch sizes and attempt limits, once defaults are applied. */
  type Positive = x: int | 0 < x witness 1

  function Min(a: int, b: int): int { if a < b then a else b }
}
