/** The coordinator's error codes and the runtime failures its account constraints raise. */
module Errors {
  datatype Error =
    | Unauthorized
    | Paused
    | InvalidPda
    | ConfigMismatch
    | MintMismatch
    | AccountMismatch
    | RequestMismatch
    | InvalidStatus
    | InvalidNonce
    | InvalidStateVersion
    | InvalidOperation
    | InvalidCiphertextRef
    | InvalidKeyVersion
    | InvalidOperator
    | InvalidOperatorEpoch
    | Expired
    | NotExpired
    | AlreadyFinalized
    | ActiveRequest
    | NoPendingRequest
    | InvalidResult
    | InvalidSignature
    | Overflow
    | BadAccount         // missing account, wrong owner or wrong discriminator
    | ConstraintSeeds    // the address is not the one the seeds derive
    | ConstraintAddress  // the address is not the one required
    | AddressInUse       // `init` on an address that already holds an account
    | SysvarError        // the instructions sysvar has no such entry
}
