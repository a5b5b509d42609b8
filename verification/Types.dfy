/** Machine integers, byte strings, public keys and the two failure types shared by every module. */
module Types {
  type byte = x: int | 0 <= x < 0x100
  type u8 = byte
  type u16 = x: int | 0 <= x < 0x1_0000
  type u32 = x: int | 0 <= x < 0x1_0000_0000
  type u64 = x: int | 0 <= x < 0x1_0000_0000_0000_0000

  const U16_MAX: u16 := 0xFFFF
  const U64_MAX: u64 := 0xFFFF_FFFF_FFFF_FFFF

  type Bytes = seq<byte>
  type Bytes32 = s: Bytes | |s| == 32 witness seq(32, i => 0)
  type Bytes64 = s: Bytes | |s| == 64 witness seq(64, i => 0)

  const ZERO32: Bytes32 :=
    [0, 0, 0, 0, 0, 0, 0, 0, 0, 0, 0, 0, 0, 0, 0, 0, 0, 0, 0, 0, 0, 0, 0, 0, 0, 0, 0, 0, 0, 0, 0, 0]

  const ONES32: Bytes32 :=
    [1, 1, 1, 1, 1, 1, 1, 1, 1, 1, 1, 1, 1, 1, 1, 1, 1, 1, 1, 1, 1, 1, 1, 1, 1, 1, 1, 1, 1, 1, 1, 1]

  /** A 32-byte address; `bytes` is the source's `to_bytes()`. */
  datatype Pubkey = Pubkey(bytes: Bytes32)

  const DEFAULT_PUBKEY := Pubkey(ZERO32)

  /** A program-derived address lies off the curve and the all-zero key lies on it, so they differ. */
  type PdaKey = k: Pubkey | k != DEFAULT_PUBKEY
    witness (assert ONES32[0] != ZERO32[0]; Pubkey(ONES32))

  datatype Option<+T> = None | Some(value: T)

  datatype Result<+T, +E> = Ok(value: T) | Err(error: E) {
    predicate IsFailure() {
      Err?
    }

    function PropagateFailure<U>(): Result<U, E>
      requires Err?
    {
      Err(error)
    }

    function Extract(): T
      requires Ok?
    {
      value
    }
  }

  /** The outcome of a `require!`: nothing on success, an error otherwise. */
  datatype Outcome<+E> = Pass | Fail(error: E) {
    predicate IsFailure() {
      Fail?
    }

    function PropagateFailure<U>(): Result<U, E>
      requires Fail?
    {
      Err(error)
    }
  }

  function Require<E>(condition: bool, error: E): Outcome<E> {
    if condition then Pass else Fail(error)
  }

  /** `u64::checked_add`. */
  function CheckedAdd(a: u64, b: u64): Option<u64> {
    if a + b <= U64_MAX then Some(a + b) else None
  }

  /**
   * The three library primitives, left uninterpreted: SHA-256 (section 6.2 of FIPS 180-4),
   * program-address derivation under the coordinator's program id, and Ed25519 verification
   * (section 5.1.7 of RFC 8032) of (public key, message, signature).
   * Nothing is assumed of them beyond their result types.
   */
  datatype Crypto = Crypto(
    sha256: Bytes -> Bytes32,
    findProgramAddress: seq<Bytes> -> PdaKey,
    ed25519Verify: (Bytes32, Bytes, Bytes64) -> bool)

  /** Two different inputs with one digest. */
  predicate Collides(env: Crypto, x: Bytes, y: Bytes) {
    x != y && env.sha256(x) == env.sha256(y)
  }
}
