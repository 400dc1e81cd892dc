/** Option and Result, the two failure-carrying wrappers the model uses for
    Go's nil values and (value, error) returns. */
module Wrappers {

  datatype Option<+T> = None | Some(value: T)

  datatype Result<+R, +E> = Success(value: R) | Failure(error: E)
}

/** Octets: the byte type shared by the UTF-8 and Base64 codecs, and the
    6-bit split both of them rely on. */
module Octets {
  type Byte = b: int | 0 <= b < 256

  lemma QuotRem64(q: int, r: int)
    requires 0 <= r < 64
    ensures (q * 64 + r) / 64 == q && (q * 64 + r) % 64 == r
  {
  }
}
