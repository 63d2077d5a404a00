/**
 Shared vocabulary: optional values, results, bytes and an idealised SHA-256.
 */
module Common {

  datatype Option<+T> = None | Some(value: T)

  newtype Byte = b: int | 0 <= b < 256

  type Bytes = seq<Byte>

  /** SHA-256 as a collision-free function: a digest is determined by, and determines, the bytes. */
  datatype Digest = Sha256(of: Bytes)
}
