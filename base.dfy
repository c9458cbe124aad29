/** Shared vocabulary of the model: optional values (Go's nil), results with an
    error message (Go's `(T, error)` pairs), the fixed-width integers the source
    declares, and the clock arithmetic of Go's `time` package. */
module Base {

  /** A value that may be absent: Go's nil pointer, nil map or nil error. */
  datatype Option<+T> = None | Some(value: T)

  /** A value or the text of the error that replaced it. */
  datatype Result<+T> = Success(value: T) | Failure(error: string)

  newtype int32 = x: int | -0x8000_0000 <= x < 0x8000_0000
  newtype uint32 = x: int | 0 <= x < 0x1_0000_0000
  newtype uint64 = x: int | 0 <= x < 0x1_0000_0000_0000_0000

  /** One second as a Go `time.Duration` (nanoseconds). */
  const Second: int := 1_000_000_000
  /** One millisecond as a Go `time.Duration`. */
  const Millisecond: int := 1_000_000

  /** `t.Unix()` of an instant given in nanoseconds since the epoch: whole
      seconds, rounded toward negative infinity. */
  function Unix(t: int): (s: int)
    ensures s * Second <= t < (s + 1) * Second
  {
    t / Second
  }

  /** Go's integer division of a by a positive b, which truncates toward zero. */
  function TruncDiv(a: int, b: int): (q: int)
    requires b > 0
    ensures a >= 0 ==> q * b <= a < (q + 1) * b
    ensures a < 0 ==> (q - 1) * b < a <= q * b
  {
    if a >= 0 then a / b else -((-a) / b)
  }
}
