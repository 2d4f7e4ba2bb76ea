/**
 * The two injected streams: a writer that only ever grows (the `Vec<u8>` or
 * standard error the check writes to) and a reader that only ever shrinks
 * (the `&[u8]` or standard input it reads the answer from).
 */
module Streams {
  import opened Wrappers
  import opened Errors

  type Byte = b: int | 0 <= b < 256

  class Writer {
    /** Everything written so far, as text. */
    var buffer: string

    constructor ()
      ensures buffer == []
    {
      buffer := [];
    }

    /** `write!`: appends `s`; an in-memory buffer never refuses a write. */
    method Write(s: string)
      modifies this
      ensures buffer == old(buffer) + s
    {
      buffer := buffer + s;
    }
  }

  class Reader {
    /** The bytes not yet read. */
    var remaining: seq<Byte>

    constructor (bytes: seq<Byte>)
      ensures remaining == bytes
    {
      remaining := bytes;
    }

    /**
     * `read_exact` into an `n`-byte buffer, as `&[u8]` implements it: when
     * fewer than `n` bytes are left, everything left is discarded and the
     * read fails with `UnexpectedEof`.
     */
    method ReadExact(n: nat) returns (r: Result<seq<Byte>, Error>)
      modifies this
      ensures n <= |old(remaining)| ==> r == Ok(old(remaining)[..n]) && remaining == old(remaining)[n..]
      ensures |old(remaining)| < n ==> r == Err(IoError(UnexpectedEof)) && remaining == []
      ensures r.Ok? ==> |r.value| == n
    {
      if n <= |remaining| {
        r := Ok(remaining[..n]);
        remaining := remaining[n..];
      } else {
        remaining := [];
        r := Err(IoError(UnexpectedEof));
      }
    }
  }
}
