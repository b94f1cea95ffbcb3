/**
 * The error values the cache can return: the variants of `CacheableError` and
 * the `std::io::ErrorKind`s the core produces.
 */
module Errors {

  /** The `std::io::ErrorKind` values the core creates or passes through. */
  datatype IoKind =
    | NotFound
    | PermissionDenied
    | InvalidInput
    | ResourceBusy
    | ReadOnlyFilesystem
    | StorageFull
    | TimedOut
    | Uncategorized
    | Other

  /** `CacheableError`; `Tokio` stands for a timeout elapsing around blocking work. */
  datatype CacheableError =
    | NotFound
    | WriteError
    | EmptyBuffer
    | EmptyKey
    | Tokio
    | Io(kind: IoKind)
}
