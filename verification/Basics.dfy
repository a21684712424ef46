/** Vocabulary shared by the other modules. */
module Basics {

  datatype Option<+T> = None | Some(value: T)

  datatype Result<+T, +E> = Ok(value: T) | Err(error: E)

  type Byte = b: int | 0 <= b < 256

  /** Rust strings and byte vectors: names, tokens, nonces and payloads. */
  type Bytes = seq<Byte>

  const HASH_WIDTH_IN_BYTES: nat := 32

  /** SHA-256, idealised: a digest is known exactly by what was hashed, so two
      digests are equal only if their preimages are. */
  datatype Digest = Digest(preimage: Bytes)

  /** Looking a key up in a hash map. */
  function Get<K, V>(m: map<K, V>, k: K): Option<V> {
    if k in m then Some(m[k]) else None
  }
}
