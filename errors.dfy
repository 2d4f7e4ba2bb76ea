/** The failures that reach the caller of the routing-URL check. */
module Errors {
  import opened Wrappers

  /** The remediation hint attached to a non-interactive hard error. */
  datatype Suggestion = AllowInvalidRoutingUrlOrSpecifyValidUrl

  /** The only I/O failure the in-memory streams can produce: `read_exact` ran out of bytes. */
  datatype IoErrorKind = UnexpectedEof

  datatype Error =
    /** A `std::io::Error` propagated by `?`. */
    | IoError(kind: IoErrorKind)
    /** A `RoverError` built from an `anyhow!` message, possibly carrying a suggestion. */
    | RoverError(message: string, suggestion: Option<Suggestion>)
    /** The process aborts: `unwrap()` on a failed UTF-8 decoding of the answer byte. */
    | Panic(byte: int)

  const CANCELLED_MESSAGE := "You cancelled a subgraph publish due to an invalid routing url."

  /** The error returned when the user answers anything but `y`/`Y` to the prompt. */
  function Cancelled(): Error {
    RoverError(CANCELLED_MESSAGE, None)
  }
}
