/** Octets, optional values and the numeric constants shared by every layer. */
module Bytes {
  type byte = b: int | 0 <= b < 256

  datatype Option<+T> = None | Some(value: T)

  // Line control bytes.
  const START_OF_MESSAGE: byte := 10
  const ACK: byte := 6
  const NAK: byte := 21

  // Size of the payload buffers; a larger length byte is refused.
  const MAX_MESSAGE_SIZE := 56

  // Status codes.
  const STATUS_OK := 0
  const STATUS_ERROR := -1
  const STATUS_WAIT := -2
  const STATUS_NAK := -3
  const STATUS_TIMEOUT := -4
  const STATUS_MESSAGE_TOO_BIG := -5
  const STATUS_JUNK := -6
  const STATUS_BAD_CHECKSUM := -7
  const STATUS_MESSAGE_TOO_SMALL := -8
  const STATUS_QUEUE_FULL := -9
  const STATUS_INVALID_ARGUMENT := -10
  const STATUS_ALREADY := -11
  const STATUS_FORBIDDEN := -12

  /** isspace. */
  predicate IsSpace(c: char) {
    9 <= c as int <= 13 || c == ' '
  }

  /** A sequence taken from its end. */
  function Last<T>(s: seq<T>): T
    requires s != []
  {
    s[|s| - 1]
  }

  function Init<T>(s: seq<T>): seq<T>
    requires s != []
  {
    s[..|s| - 1]
  }

  /** `n` copies of `x`. */
  function Repeat<T>(x: T, n: nat): (r: seq<T>)
    ensures |r| == n && forall i :: 0 <= i < n ==> r[i] == x
  {
    seq(n, _ => x)
  }
}
