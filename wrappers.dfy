/** Failure-carrying values shared by the other modules: Go's `(T, error)`
    pairs and nullable values become these. */
module Wrappers {

  datatype Option<+T> = None | Some(value: T)

  datatype Result<+T, +E> = Success(value: T) | Failure(error: E)

  /** Go strings are byte strings; every string that is sliced by index is a
      sequence of bytes here. */
  type Bytes = seq<bv8>

  /** A `uuid.UUID`: sixteen bytes. */
  type Uuid = b: Bytes | |b| == 16 witness seq(16, _ => 0 as bv8)

  /** The bytes of an ASCII string literal, so that constants such as the
      scheme name can be written as text. */
  function Ascii(s: string): (b: Bytes)
    requires forall i | 0 <= i < |s| :: s[i] < 128 as char
  {
    seq(|s|, i requires 0 <= i < |s| => s[i] as int as bv8)
  }
}
