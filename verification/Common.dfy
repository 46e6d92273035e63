/** Shared value types. */
module Common {
  datatype Option<+T> = None | Some(value: T)

  newtype Byte = b: int | 0 <= b < 256

  /** Immutable byte strings.  SHA-256 is modelled as collision-free: a digest is
      represented by the bytes it was computed from. */
  type Bytes = seq<Byte>
}
