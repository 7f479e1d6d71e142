/** Small shared vocabulary: optional values, results, Go's `int`, and the
    standard-library routines of Go that the core calls but this model does
    not interpret. */
module Common {

  datatype Option<+T> = None | Some(value: T) {
    function GetOr(default: T): T {
      match this
      case Some(v) => v
      case None => default
    }
  }

  /** A value or the error a Go function returned instead of it. */
  datatype Result<+T, +E> = Success(value: T) | Failure(error: E)

  /** A Go function whose only result is an `error`. */
  datatype Outcome<+E> = Pass | Fail(error: E)

  /** Go's `int` on a 64-bit platform. */
  const MinGoInt: int := -0x8000_0000_0000_0000
  const MaxGoInt: int := 0x7fff_ffff_ffff_ffff
  type GoInt = x: int | MinGoInt <= x <= MaxGoInt

  /** The foreign routines the core calls, kept uninterpreted:
      - urlParses(u): `url.Parse(u)` returns no error;
      - durationParses(n): `time.ParseDuration` accepts the text `"<n>s"`,
        and then yields a duration of n seconds;
      - base64Encode(s): `base64.StdEncoding.EncodeToString([]byte(s))`,
        the encoding of section 4 of RFC 4648. */
  datatype Library = Library(
    urlParses: string -> bool,
    durationParses: int -> bool,
    base64Encode: string -> string)
}
