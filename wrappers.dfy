/** Optional values and error results, used wherever the source returns null or throws. */
module Wrappers {
  datatype Option<T> = None | Some(value: T)

  /** Errors the source signals by throwing. */
  datatype Error =
    | DuplicateKey        // unique-constraint violation on save, or Dictionary.Add / ToDictionary on a key already present
    | KeyNotFound         // dictionary indexer on a missing key
    | NoMatchingElement   // Enumerable.First or Single on a sequence with no matching element
    | MoreThanOneElement  // Enumerable.Single or SingleOrDefault on a sequence with several matches
    | NullReference       // dereference of a null collaborator result
    | UnknownStep         // the `default` branch of a switch over saga steps

  datatype Result<T> = Ok(value: T) | Err(error: Error)

  /** Two successes carrying the same value are the same result. */
  lemma OkInjective<T>(a: Result<T>, b: Result<T>)
    requires a.Ok? && b.Ok? && a.value == b.value
    ensures a == b
  {
  }
}
