/**
 * Shared vocabulary of the order-capture service: identifiers, instants,
 * durations, the coded error taxonomy and the Option/Result wrappers that
 * stand for Go's `(value, error)` returns.
 */
module Common {

  /** A UUID in its canonical text form, as `uuid.UUID.String()` prints it. */
  type Uuid = string

  /** The zero value of `uuid.UUID`. */
  const NilUuid: Uuid := "00000000-0000-0000-0000-000000000000"

  /**
   * An instant, in nanoseconds since Go's zero time (January 1, year 1,
   * 00:00:00 UTC). `time.Time{}` is 0, so `IsZero()` is `t == 0`.
   */
  type Time = int

  /** A `time.Duration`, in nanoseconds. */
  type Duration = int

  const NanosPerSecond: int := 1_000_000_000
  const NanosPerMinute: int := 60 * NanosPerSecond
  const NanosPerHour: int := 60 * NanosPerMinute
  const NanosPerDay: int := 24 * NanosPerHour

  /** Raw bytes, for serialized payloads. */
  type Bytes = seq<bv8>

  datatype Option<+T> = None | Some(value: T) {
    function GetOr(default: T): T {
      match this
      case Some(v) => v
      case None => default
    }
  }

  /** The error codes of the application's error package. */
  datatype ErrorCode =
    | NotFound
    | InvalidParameter
    | UnpermittedOp
    | OptimisticLock
    | RepositoryError
    | QueryError
    | Unknown
    | Uncoded  // a plain `fmt.Errorf` / library error that carries no code

  datatype Error = Error(code: ErrorCode, message: string)

  /** Go's `(T, error)`: exactly one of the two is meaningful. */
  datatype Result<+T> = Success(value: T) | Failure(error: Error) {
    function GetOr(default: T): T {
      match this
      case Success(v) => v
      case Failure(_) => default
    }
  }

  /** `errors.IsCode(err, code)`. */
  predicate IsCode(err: Option<Error>, code: ErrorCode) {
    err.Some? && err.value.code == code
  }
}
