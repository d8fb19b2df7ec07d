/** Machine integers, byte strings and the two result types used everywhere. */
module Basics {

  newtype byte = x: int | 0 <= x < 256

  // A string of the program, as its UTF-8 bytes.
  type Text = seq<byte>

  // Thirty-two raw bytes: an ed25519 public key.
  type Key32 = t: Text | |t| == 32 witness seq(32, i => 0)

  type u16 = x: nat | x < 0x1_0000
  type u64 = x: nat | x < 0x1_0000_0000_0000_0000

  datatype Option<+T> = None | Some(value: T)

  datatype Result<+T, +E> = Ok(value: T) | Err(error: E)

  /** `map.get(k).copied().unwrap_or(default)`. */
  function Lookup<K, V>(m: map<K, V>, k: K, default: V): V {
    if k in m then m[k] else default
  }
}
