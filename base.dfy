/** Shared vocabulary: optional values, results, Go's 64-bit integer range
    and time expressed in nanoseconds. */
module Base {

  datatype Option<+T> = None | Some(value: T)

  /** A Go `(value, error)` pair where exactly one side is meaningful. */
  datatype Result<+T, +E> = Ok(value: T) | Err(error: E)

  const INT64_MIN: int := -0x8000_0000_0000_0000
  const INT64_MAX: int := 0x7FFF_FFFF_FFFF_FFFF

  predicate InInt64(x: int) {
    INT64_MIN <= x <= INT64_MAX
  }

  /** Go's `int64` (and the 64-bit `int`, `time.Duration`). */
  type Int64 = x: int | INT64_MIN <= x <= INT64_MAX

  /** A point in time or a `time.Duration`, in nanoseconds. */
  type Time = int

  /** A UUID; only its identity matters, so a fresh one is any value not in use. */
  type Uuid = nat

  /** Why a repository call failed: the database failed, no row matched,
      or the row would duplicate an existing key. */
  datatype RepoError = StoreFailure | RecordNotFound | DuplicateRecord

  const SECOND: int := 1_000_000_000
  const MINUTE: int := 60 * SECOND
}
