# Confidential coordinator: a verified model

A Dafny model of the confidential coordinator, the byte formats that authenticate its
transitions, and the off-chain client and worker around it, with proofs of what every run
of the system keeps. `dafny verify dfyconfig.toml` checks the whole project.

## What is modelled

The **ledger** is a map from address to Config, ConfidentialAccount or Request record. Each of
the nine instructions is a function from a ledger to a new ledger or an error, with its account
constraints as guards in the order Anchor applies them: every existing account is loaded, then
`init` runs, then the remaining constraints in field order. A **run** is any sequence of
transactions and forward clock moves; a transaction is an instruction list, as the instructions
sysvar shows it, and the coordinator calls made under its top-level instructions, many accounts
and configs interleaving freely. A run also leaves a **history** of operators, openings and
closings, with the signature behind each result, which no instruction reads. A world is *reachable*
when some run from the empty ledger ends in it, and the safety results are about every reachable
world and every continuation.

The handlers also exist as they are written: early returns, objects whose fields are assigned in
place, a buffer that is spliced, a store whose files change one at a time. Each method is proved to
leave exactly the state that its specification function computes, and the theorems are about those
functions.

| module | models |
|---|---|
| `Types`, `LittleEndian`, `Errors` | machine integers, byte strings, keys, the three library primitives, error codes |
| `Protocol` | `crates/protocol/src/lib.rs`: both encodings, a decoder, digests, the blob wrapper |
| `Ed25519` | `ed25519.rs`, the native precompile, and the verify instruction the client builds |
| `State`, `Coordinator` | `state.rs` and the nine instructions as functions |
| `Invariant`, `Runs` | the invariant of every ledger and every history, its preservation, and the atomicity of transactions |
| `Exactness`, `Content` | exactly when each instruction succeeds, what it leaves and how it refuses; what digests, messages, blobs and addresses contain, read back from bytes |
| `Handlers` | the handlers on mutable objects, and the runtime that loads, dispatches, writes back and rolls back |
| `Lifecycle`, `AccountLog`, `Independence`, `Safety` | the results about single steps, the per-account log, commutation, whole runs |
| `Client`, `ClientProofs`, `Adjacency` | `decode.rs`, `finalize.rs`, the gate of `commands.rs`, the order check of `relayer/types.rs` |
| `Worker`, `EndToEnd` | the blob store, the policy circuit, `process_request`, and what a Finalized result decrypts to |
| `Demo`, `FullDemo` | the transactions of `run_demo`, two witnesses, and the whole of `run_demo` from encryption to decryption with a concrete instance |

### Assumptions

- SHA-256 (section 6.2 of FIPS 180-4), program-address derivation and Ed25519 verification
  (section 5.1.7 of RFC 8032) are arbitrary functions. Nothing is assumed of them except that a
  derived address is not `Pubkey::default()`. In particular neither the hash nor the derivation is
  injective: results that depend on a hash end in "or these two different strings collide", and
  address uniqueness comes from `init` failing on an occupied address.
- One verification predicate serves the precompile and the client, although the precompile checks
  strictly and the client calls `verify`. That a signature verifies does not mean that anybody made
  it: the key holder can sign any message. Authenticity is therefore stated of signatures that
  occurred. Every finalize records the signature its transaction carried, and the end-to-end theorem
  has two premises about those: `EndToEnd.Unforged` (an accepted message was signed by its key
  holder) and `EndToEnd.HonestOperators` (key holders signed only what the worker produced).
  `FullDemo.PremisesHold` shows both together in a run in which every message would verify.
- The precompile takes index `u16::MAX` to mean its own instruction and any other index to be a
  transaction position.
- A failed instruction aborts its transaction and leaves the ledger unchanged.
  `rotate_operator` and the lock release assign a field before their checked increment
  (`programs/confidential-coordinator/src/lib.rs:93-97` and `347-355`); the in-place handlers keep
  that order and the runtime discards the half-written object.
- The homomorphic library is a record of functions over abstract ciphertexts. `Worker.LawfulAt`
  states what is assumed of it, at a request's three inputs only: they and the circuit's result
  survive serialization, and the circuit's three gates commute with decryption. An evaluation key is
  identified with its serialization.
- A caller that signs is a key in the instruction. `status` is the four named values or any other
  byte; no reachable ledger holds another.

### Where the code and its documentation differ

- The security mapping says that after a key-version change existing accounts cannot submit again
  without being recreated (`docs/confidential-contracts-svm-security-mapping.md:279`). In the code
  the version can be set back, and `Lifecycle.KeyVersionReversible` shows that this restores the
  very same ledger, so a key-version change, unlike a rotation, is not final for pending requests.
- The client's preparation is described as the shared security path of finalize
  (`crates/client/src/devnet/finalize.rs:120`). It does not check epoch, key version, result hash or
  expiry: `ClientProofs.PreparedLands` gives the exact condition under which what it prepared lands,
  and `Demo.PreparedCanExpire` a run in which it does not.
- Verification of a request is described as one step (`crates/client/src/devnet/decode.rs:233-237`)
  and reads three accounts separately. `ClientProofs.TornReadExact` says exactly when it refuses a
  genuine request, and `Demo.TornReadCanFail` is such a run.

## Model

| member | source | states |
|---|---|---|
| `Protocol.RequestRoundTrip` | crates/protocol/src/lib.rs:70-91 | For every binding the request encoding is 377 bytes under its own domain prefix and decodes to the same binding |
| `Protocol.ResultRoundTrip` | crates/protocol/src/lib.rs:97-107 | For every binding the result encoding is 444 bytes under the result domain and decodes to the same binding |
| `Protocol.DecodeRequestExact` | crates/protocol/src/lib.rs:70-91 | For all byte strings: the decoder returns b exactly on the encoding of b |
| `Protocol.DecodeResultExact` | crates/protocol/src/lib.rs:97-107 | The same for results, with the free request digest among the decoded fields |
| `Protocol.RequestImage` | crates/protocol/src/lib.rs:70-91 | A byte string is a request encoding iff it has the length and the prefix, so every body is reachable |
| `Protocol.ResultImage` | crates/protocol/src/lib.rs:97-107 | A byte string is a result encoding iff it has the length and the prefix |
| `Protocol.EncodeRequestInjective` | crates/protocol/src/lib.rs:70-91 | Equal request encodings have equal bindings, in every field |
| `Protocol.EncodeResultInjective` | crates/protocol/src/lib.rs:97-107 | Equal result encodings have equal bindings, request digest included |
| `Protocol.DomainsSeparate` | crates/protocol/src/lib.rs:25-28 | No request encoding is a prefix of a result encoding, nor the other way round |
| `Protocol.RequestDigestBinds` | crates/protocol/src/lib.rs:93-95 | Equal request digests mean equal bindings, or the two encodings are an explicit SHA-256 collision |
| `Protocol.BuildRequest` | crates/protocol/src/lib.rs:70-91 | The growing buffer ends up as exactly the specified encoding |
| `Protocol.BuildResult` | crates/protocol/src/lib.rs:97-107 | Splicing the domain prefix in place and appending the tail yields exactly the specified result encoding |
| `Protocol.PutU16` | crates/protocol/src/lib.rs:162-164 | Appends the two little-endian bytes and keeps what was there |
| `Protocol.PutU32` | crates/protocol/src/lib.rs:166-168 | Appends the four little-endian bytes and keeps what was there |
| `Protocol.PutU64` | crates/protocol/src/lib.rs:170-172 | Appends the eight little-endian bytes and keeps what was there |
| `Protocol.BuildBlob` | crates/protocol/src/lib.rs:117-125 | The buffer ends up as magic, kind, key version, parameter hash and payload |
| `Protocol.UnwrapExact` | crates/protocol/src/lib.rs:127-151 | For all byte strings, unwrapping yields p iff the string is the wrapping of p under the same header |
| `Protocol.WrappedReads` | crates/protocol/src/lib.rs:127-151 | A blob wrapped under another kind, key version or parameter set is refused, with the first difference as the error |
| `Content.RequestLayout` | crates/protocol/src/lib.rs:70-91 | Every field of the request encoding at its absolute offset |
| `Content.ResultLayout` | crates/protocol/src/lib.rs:97-107 | The result encoding is the request body under the other prefix and the four result fields at their offsets |
| `Content.BlobLayout` | crates/protocol/src/lib.rs:117-125 | Every part of a blob at its absolute offset |
| `Content.ZeroHashExact` | crates/protocol/src/lib.rs:66-68 | A hash counts as zero iff all of its 32 bytes are |
| `Content.DomainsInText` | crates/protocol/src/lib.rs:18-28 | The two domain separators are the documented texts |
| `Content.SeedsInText` | crates/client/src/devnet/decode.rs:270-284 | The three addresses are derived from exactly these texts and key bytes |
| `Content.AddressesDetermine` | programs/confidential-coordinator/src/lib.rs:413-442 | An address determines its mint, its mint and owner, or its account and nonce, unless two seed lists collide |
| `LittleEndian.FromToLe` | crates/protocol/src/lib.rs:162-172 | Every integer below 256^n survives the trip through n little-endian bytes |
| `LittleEndian.ToFromLe` | crates/protocol/src/lib.rs:162-172 | Every byte string survives the trip through the integer it denotes |
| `LittleEndian.ToLeDigits` | crates/protocol/src/lib.rs:162-172 | Byte i of the encoding is the digit of weight 256^i: least significant first |
| `Ed25519.IntrospectionExact` | programs/confidential-coordinator/src/ed25519.rs:15-86 | For arbitrary bytes and positions introspection succeeds iff the precompile's own reading of the preceding instruction is one self-located entry over (operator, message); the overflow arms decide nothing |
| `Ed25519.IntrospectionSound` | programs/confidential-coordinator/src/ed25519.rs:15-86 | If the precompile accepted the transaction and introspection succeeds, the 64 bytes that the preceding instruction points at verify as a signature of exactly (operator, message) |
| `Ed25519.IntrospectionUnique` | programs/confidential-coordinator/src/ed25519.rs:73-84 | An instruction that binds one operator and message binds no other, and the error says what differs |
| `Ed25519.IntrospectionNeedsVerify` | programs/confidential-coordinator/src/ed25519.rs:20-31 | At position 0 or behind another program, introspection answers InvalidSignature |
| `Ed25519.BuiltOffsets` | crates/client/src/lib.rs:452 | The built verify instruction reads back as the intended offsets, key, signature and message |
| `Ed25519.BuiltAccepted` | crates/client/src/lib.rs:452 | The precompile accepts the built instruction, wherever it stands, iff the signature verifies |
| `Ed25519.BuiltPassesIntrospection` | programs/confidential-coordinator/src/ed25519.rs:20-49 | Placed directly before the coordinator instruction at any position, the built instruction passes introspection |
| `Invariant.ExecPreserves` | programs/confidential-coordinator/src/lib.rs:47-304 | Every successful instruction keeps the ledger invariant and only lets records evolve (nothing deleted, fixed fields fixed, terminal requests frozen) |
| `Invariant.InitializePreserves` | programs/confidential-coordinator/src/lib.rs:48-80 | A new config is well formed and disturbs nothing else |
| `Invariant.AdminPreserves` | programs/confidential-coordinator/src/lib.rs:82-104 | Pause, rotation and key-version writes keep the invariant and the config's fixed fields |
| `Invariant.CreatePreserves` | programs/confidential-coordinator/src/lib.rs:106-123 | A new account is idle, linked to its config, and disturbs nothing else |
| `Invariant.SubmitPreserves` | programs/confidential-coordinator/src/lib.rs:125-193 | Submit keeps the invariant on every account and request of the ledger |
| `Invariant.CancelPreserves` | programs/confidential-coordinator/src/lib.rs:195-210 | Cancel keeps the invariant |
| `Invariant.ExpirePreserves` | programs/confidential-coordinator/src/lib.rs:212-225 | Expire keeps the invariant |
| `Invariant.FinalizePreserves` | programs/confidential-coordinator/src/lib.rs:227-303 | Finalize keeps the invariant, the stored result digest included |
| `Invariant.SubmitOpens` | programs/confidential-coordinator/src/lib.rs:125-193 | A successful submit opens request nonce+1 of an idle account and changes nothing but that account and that address |
| `Invariant.OpenPreserves` | programs/confidential-coordinator/src/lib.rs:161-191 | Opening the next request of an idle account keeps every other account's lock and the invariant |
| `Invariant.CancelCloses` | programs/confidential-coordinator/src/lib.rs:195-210 | A successful cancel closes the locked Pending request of the owner before expiry, and writes nothing else |
| `Invariant.ExpireCloses` | programs/confidential-coordinator/src/lib.rs:212-225 | A successful expire closes the locked Pending request at or after expiry, and writes nothing else |
| `Invariant.FinalizeCloses` | programs/confidential-coordinator/src/lib.rs:227-303 | A successful finalize closes the locked Pending request with exactly the result whose encoding passed introspection, in its own epoch and before expiry |
| `Invariant.ClosePreserves` | programs/confidential-coordinator/src/lib.rs:338-355 | Releasing the lock with a settled request keeps the invariant; the nonce stays |
| `Invariant.BindingStable` | programs/confidential-coordinator/src/lib.rs:357-381 | No permitted change of config or request alters the request binding |
| `Lifecycle.ExecFrame` | programs/confidential-coordinator/src/lib.rs:47-304 | An instruction changes no address outside the one or two it writes |
| `Lifecycle.LinkedRecords` | programs/confidential-coordinator/src/lib.rs:494-521 | Records that meet finalize's account constraints agree on mint, config, operation and digest, and a Pending one on lock, nonce and version |
| `Lifecycle.PendingIsLast` | programs/confidential-coordinator/src/lib.rs:347-355 | A Pending request is its account's last one and the state version is below its maximum |
| `Lifecycle.FinalizeReduced` | programs/confidential-coordinator/src/lib.rs:227-303 | On every ledger with the invariant finalize returns exactly what its live guards return, error included: nonce, version, pointer, mint, config, operation, digest and overflow checks decide nothing |
| `Lifecycle.FinalizeSucceedsIff` | programs/confidential-coordinator/src/lib.rs:227-303 | The nine conditions under which finalize succeeds, both directions |
| `Lifecycle.SubmitSucceedsIff` | programs/confidential-coordinator/src/lib.rs:125-193 | The conditions under which submit succeeds once its account constraints hold, both directions |
| `Lifecycle.SubmitEffect` | programs/confidential-coordinator/src/lib.rs:167-191 | Field by field, the request a successful submit leaves, its digest, and what changes on the account |
| `Lifecycle.SubmitArgumentsForced` | programs/confidential-coordinator/src/lib.rs:148-159 | The two optimistic arguments of a successful submit are forced: expected version = expected nonce - 1 |
| `Lifecycle.LockAlwaysReleasable` | programs/confidential-coordinator/src/lib.rs:195-225 | At every slot a Pending request has exactly one of owner-cancel and anyone-expire enabled, and that step succeeds and frees the account |
| `Lifecycle.AdminSparesRelease` | programs/confidential-coordinator/src/lib.rs:195-225 | Cancel and expire do exactly the same, error included, whatever was written to a config |
| `Lifecycle.PauseReversible` | programs/confidential-coordinator/src/lib.rs:82-85 | Pausing sets the flag only, and unpausing restores the very same ledger |
| `Lifecycle.KeyVersionReversible` | programs/confidential-coordinator/src/lib.rs:101-104 | A key-version change is not final: setting it back restores the very same ledger, in-flight requests included |
| `Exactness.InitializeExact` | programs/confidential-coordinator/src/lib.rs:48-63 | The five conditions of initialization, both directions, and the error of each when it alone fails |
| `Exactness.InitializeEffect` | programs/confidential-coordinator/src/lib.rs:65-79 | Field by field, the config that initialization leaves |
| `Exactness.AdminExact` | programs/confidential-coordinator/src/lib.rs:401-406 | Pause, rotation and key-version writes succeed iff sent by the config's authority (and a rotation names a key and has an epoch left); anyone else gets Unauthorized |
| `Exactness.RotateRefusals` | programs/confidential-coordinator/src/lib.rs:87-99 | The two errors of a rotation by the authority |
| `Exactness.AdminEffect` | programs/confidential-coordinator/src/lib.rs:82-104 | An admin instruction changes exactly what it names |
| `Exactness.CreateExact` | programs/confidential-coordinator/src/lib.rs:106-109 | Creation succeeds iff address derived and free, both hashes non-zero and the config not paused; each failing alone has its own error |
| `Exactness.CreateEffect` | programs/confidential-coordinator/src/lib.rs:111-122 | Field by field, the account that creation leaves |
| `Exactness.SubmitExact` | programs/confidential-coordinator/src/lib.rs:125-165 | All conditions of submit on a ledger with the invariant, account constraints included, both directions |
| `Exactness.SubmitRefusals` | programs/confidential-coordinator/src/lib.rs:130-165 | The error of each requirement of submit when it alone fails |
| `Exactness.SubmitConstraintRefusals` | programs/confidential-coordinator/src/lib.rs:427-454 | A missing record, a wrong request address and an occupied one each have their error |
| `Exactness.SubmitConstraintsExact` | programs/confidential-coordinator/src/lib.rs:427-454 | Submit's account constraints on arbitrary ledgers, both directions |
| `Exactness.SubmitGuardsExact` | programs/confidential-coordinator/src/lib.rs:130-165 | Submit's requirements on arbitrary records, both directions, none left out |
| `Exactness.CancelExact` | programs/confidential-coordinator/src/lib.rs:195-210 | All conditions of cancel on a ledger with the invariant, both directions |
| `Exactness.ExpireExact` | programs/confidential-coordinator/src/lib.rs:212-225 | All conditions of expire on a ledger with the invariant, both directions |
| `Exactness.ReleaseRefusals` | programs/confidential-coordinator/src/lib.rs:195-225 | Why a cancel or an expire of an account's own request is refused |
| `Exactness.StrangerCannotCancel` | programs/confidential-coordinator/src/lib.rs:456-465 | Anybody but the owner is refused, whatever the derivation |
| `Exactness.ReleaseConstraintsExact` | programs/confidential-coordinator/src/lib.rs:456-492 | The account constraints of cancel and expire on arbitrary ledgers, both directions |
| `Exactness.FinalizeExact` | programs/confidential-coordinator/src/lib.rs:227-303 | All conditions of finalize on a ledger with the invariant, account constraints and sysvar included, both directions |
| `Exactness.FinalizeRefusals` | programs/confidential-coordinator/src/lib.rs:234-297 | The error of each live requirement of finalize when it alone fails |
| `Exactness.FinalizeConstraintRefusals` | programs/confidential-coordinator/src/lib.rs:494-521 | A missing record, or anything but the instructions sysvar, is refused with its error |
| `Exactness.FinalizeConstraintsExact` | programs/confidential-coordinator/src/lib.rs:494-521 | Finalize's account constraints on arbitrary ledgers, both directions |
| `Exactness.FinalizeRecordGuardsExact` | programs/confidential-coordinator/src/lib.rs:234-278 | Finalize's requirements on arbitrary records, both directions, none left out |
| `Exactness.FinalizeGuardsExact` | programs/confidential-coordinator/src/lib.rs:234-297 | Records, recomputed digest and binding signature are together all that finalize asks |
| `Exactness.PendingLockExact` | programs/confidential-coordinator/src/lib.rs:314-336 | The lock check on arbitrary records, both directions |
| `AccountLog.RequestExistsIff` | programs/confidential-coordinator/src/lib.rs:156-160 | The account's request number n exists iff 1 <= n <= request_nonce |
| `AccountLog.LogComplete` | programs/confidential-coordinator/src/lib.rs:156-191 | Every request of the account stands in its log at the position its nonce names |
| `AccountLog.AccountSummarizesLog` | programs/confidential-coordinator/src/lib.rs:347-355 | request_nonce is the log's length, state_version the number of terminal entries, pending_request its one Pending entry |
| `AccountLog.RefinesLog` | programs/confidential-coordinator/src/lib.rs:125-355 | Each successful instruction opens an entry, closes the open one, or leaves the account's log as it is |
| `AccountLog.OtherLogsStutter` | programs/confidential-coordinator/src/lib.rs:47-304 | Instructions on other accounts leave an account's log unchanged |
| `AccountLog.LogAppendOnly` | programs/confidential-coordinator/src/lib.rs:125-355 | Between two ledgers of a run the log only grows and all entries but the open one are final |
| `AccountLog.CreatedLogEmpty` | programs/confidential-coordinator/src/lib.rs:106-123 | An account appears only by create, with an empty log |
| `Runs.InvokeKeeps` | programs/confidential-coordinator/src/lib.rs:47-304 | A call inside an accepted transaction keeps ledger and history invariants |
| `Runs.InvokeSees` | programs/confidential-coordinator/src/lib.rs:47-304 | A call sees the current slot, the whole transaction and its own top-level position; its outcome is the instruction's and the clock stays |
| `Runs.UpToNext` | crates/client/src/lib.rs:234-244 | Each call runs on what the calls before it left |
| `Runs.FailureUndoesAll` | crates/client/src/lib.rs:234-244 | One failing call undoes the whole transaction: ledger, clock and history are those from before it |
| `Runs.TransactionAtomic` | crates/client/src/lib.rs:234-244 | A transaction commits iff its signatures verify and every call in turn succeeds, and then ends where the last call does; otherwise it leaves no trace |
| `Runs.FinalizeHistory` | programs/confidential-coordinator/src/lib.rs:227-303 | A finalize records the operator, the message and the signature its transaction carried; the signature verifies and its key held the request's own epoch |
| `Runs.SubmitHistory` | programs/confidential-coordinator/src/lib.rs:125-193 | A submit records an opening that follows the closing of the account's previous request |
| `Runs.CancelHistory` | programs/confidential-coordinator/src/lib.rs:195-210 | A cancel records a closing before expiry |
| `Runs.ExpireHistory` | programs/confidential-coordinator/src/lib.rs:212-225 | An expire records a closing at or after expiry |
| `Runs.RotateHistory` | programs/confidential-coordinator/src/lib.rs:87-99 | A rotation records the new operator under an epoch never used before |
| `Runs.RunKeeps` | programs/confidential-coordinator/src/lib.rs:47-304 | Over any sequence of transactions and clock moves the invariant holds and the end is later than the start |
| `Runs.ReachableInv` | programs/confidential-coordinator/src/lib.rs:47-304 | Every reachable world satisfies the whole invariant |
| `Runs.ReachableContinues` | programs/confidential-coordinator/src/lib.rs:47-304 | Continuing a reachable world reaches a reachable world |
| `Handlers.InitializeHandler` | programs/confidential-coordinator/src/lib.rs:48-80 | The in-place handler leaves the specified config, or the old one on error |
| `Handlers.SetPausedHandler` | programs/confidential-coordinator/src/lib.rs:82-85 | Only the flag changes |
| `Handlers.RotateHandler` | programs/confidential-coordinator/src/lib.rs:87-99 | The new operator and epoch; on overflow the operator is already written, as in the source |
| `Handlers.SetKeyVersionHandler` | programs/confidential-coordinator/src/lib.rs:101-104 | Only the key version changes |
| `Handlers.CreateHandler` | programs/confidential-coordinator/src/lib.rs:106-123 | The in-place handler leaves the specified account, or the old one on error |
| `Handlers.SubmitHandler` | programs/confidential-coordinator/src/lib.rs:125-193 | Field-by-field assignment and the digest over the half-written request yield the specified pair; on error nothing changes |
| `Handlers.CancelHandler` | programs/confidential-coordinator/src/lib.rs:195-210 | The handler's early returns and writes yield the specified pair or its error; an error leaves both objects as they were, or on overflow half-written |
| `Handlers.ExpireHandler` | programs/confidential-coordinator/src/lib.rs:212-225 | The handler's early returns and writes yield the specified pair or its error; an error leaves both objects as they were, or on overflow half-written |
| `Handlers.FinalizeHandler` | programs/confidential-coordinator/src/lib.rs:227-303 | The handler's early returns, built message and writes yield the specified pair or its error; an error leaves both objects as they were, or on overflow half-written |
| `Handlers.ReleaseLock` | programs/confidential-coordinator/src/lib.rs:338-345 | The status and then the lock; on overflow both are already written and the version is not |
| `Handlers.AccountObject.ReleaseAccountLock` | programs/confidential-coordinator/src/lib.rs:347-355 | The lock is cleared before the checked increment; the nonce is untouched |
| `Handlers.Bank.Invoke` | programs/confidential-coordinator/src/lib.rs:47-304 | Loading, running and writing back one instruction is the specified step, and a failed one leaves ledger, clock and history as they were |
| `Handlers.Bank.Process` | crates/client/src/lib.rs:234-244 | A transaction with several instructions commits as a whole; when it does not commit, ledger, clock and history are the old ones |
| `Safety.FinalizedWasSigned` | programs/confidential-coordinator/src/lib.rs:277-297 | Every Finalized request of a reachable ledger was settled by an event that holds the signature its transaction carried, verified over the encoding of its own binding by the operator of its own epoch |
| `Content.FinalizedMessageContent` | programs/confidential-coordinator/src/lib.rs:280-297 | Read back from its bytes, the message that settled a Finalized request names the config's version and domain, the program, the four addresses, every bound field of the request, its digest and its stored result |
| `Content.FinalizeMessageContent` | programs/confidential-coordinator/src/lib.rs:280-292 | Read back from its bytes, the message finalize verifies describes the pending request and the submitted result, for any records |
| `Content.SubmitDigestContent` | programs/confidential-coordinator/src/lib.rs:187-188 | The digest a submit stores is that of 377 bytes which decode to a description of the stored request |
| `Content.StoredDigestContent` | programs/confidential-coordinator/src/lib.rs:357-381 | So is the stored digest of every request of every reachable ledger |
| `Safety.OperatorFunctional` | programs/confidential-coordinator/src/lib.rs:87-99 | Along any run one epoch of a config has one operator |
| `Safety.CurrentOperator` | programs/confidential-coordinator/src/lib.rs:87-99 | The current operator is the one recorded for the current epoch |
| `Safety.MessageNamesRequest` | crates/protocol/src/lib.rs:97-107 | A signed message determines the request address it settles |
| `Safety.MessageConsumedOnce` | programs/confidential-coordinator/src/lib.rs:227-303 | In any run a request is closed at most once and a signed message is consumed by at most one finalize |
| `Safety.TerminalIsFinal` | programs/confidential-coordinator/src/lib.rs:314-336 | A terminal request record never changes in any continuation |
| `Safety.AccountIsItsLog` | programs/confidential-coordinator/src/lib.rs:125-355 | Over whole runs the account record summarizes an append-only log |
| `Safety.RotationIsFinal` | programs/confidential-coordinator/src/lib.rs:247-250 | A request Pending when a rotation succeeds is never Finalized, by the rest of the transaction or by any continuation |
| `Safety.EpochMonotone` | programs/confidential-coordinator/src/lib.rs:87-99 | The epoch never decreases over a run |
| `Safety.ClosedInTime` | programs/confidential-coordinator/src/lib.rs:161-165 | Results and cancellations fall in [created, expiry), expirations at or after expiry, and expiry is created plus the config's lifetime |
| `Safety.LifetimeImmutable` | programs/confidential-coordinator/src/lib.rs:48-80 | The config's lifetime never changes after initialization |
| `Safety.ClosedBeforeOpened` | programs/confidential-coordinator/src/lib.rs:125-129 | Between two requests of one account the closing of the earlier precedes the opening of the later |
| `Safety.IntervalsDisjoint` | programs/confidential-coordinator/src/lib.rs:125-193 | The pending intervals of one account's requests are disjoint and ordered by nonce |
| `Independence.ViewDecides` | programs/confidential-coordinator/src/lib.rs:427-521 | A request step's outcome and writes depend only on its config, account and request records |
| `Independence.StepsCommute` | programs/confidential-coordinator/src/lib.rs:125-303 | Two request steps on different accounts with different request addresses commute, with the same outcomes and errors and the same final ledger |
| `Independence.OthersUntouched` | programs/confidential-coordinator/src/lib.rs:125-303 | A request step leaves every other account and its requests as they were |
| `ClientProofs.AcceptedRecordsExact` | crates/client/src/devnet/decode.rs:127-231 | On arbitrary records, any status byte included, the client accepts exactly those that meet the program's account constraints, cross-agree, hold the lock while Pending and match the digest |
| `Content.AcceptedBindingContent` | crates/client/src/devnet/decode.rs:95-122 | On arbitrary records, an accepted binding describes, field by field, the records the client read |
| `ClientProofs.DigestPinsBinding` | crates/client/src/devnet/decode.rs:221-228 | Two accepted reads with one stored digest have one binding, or exhibit a collision |
| `ClientProofs.VerifyReduced` | crates/client/src/devnet/decode.rs:238-268 | On three ledgers of one run every check but the lock comparison passes, and the binding is the program's own |
| `ClientProofs.LockAcrossTime` | crates/client/src/devnet/decode.rs:194-212 | The lock comparison fails across time iff the request was Pending at the first read and no longer at the last |
| `ClientProofs.TornReadExact` | crates/client/src/devnet/decode.rs:127-268 | The same for any run, and an accepted binding equals the program's own at every later point |
| `ClientProofs.ConsistencyExact` | crates/client/src/devnet/decode.rs:376-435 | The local gate accepts iff result.json is exactly the file the current operator writes for a Boolean result of this Pending request, with a verifying signature |
| `ClientProofs.SubmitGateExact` | crates/client/src/devnet/commands.rs:200-255 | On an atomic snapshot that passes the gate the built submit succeeds iff the amount hash is non-zero, slot + lifetime fits, and the address is free |
| `ClientProofs.SubmitGateAccepts` | crates/client/src/devnet/commands.rs:200-255 | When the gate lets a submit through, both directions, and exactly what it then sends |
| `ClientProofs.PreparedFacts` | crates/client/src/devnet/finalize.rs:121-145 | What an accepted preparation establishes about the request and the config it read, at different times |
| `ClientProofs.PreparedExact` | crates/client/src/devnet/finalize.rs:121-145 | From torn reads, preparation accepts iff the request is Pending at the first and last read, the config is not paused, the cache agrees, and result.json is the operator's verifying file for this request |
| `ClientProofs.PairPassesPrecompile` | crates/client/src/lib.rs:442-473 | After the client's own signature check the built pair passes the precompile and the coordinator's introspection |
| `ClientProofs.PairPassesAdjacency` | crates/client/src/devnet/finalize.rs:147-161 | The built pair always passes the client's own order check |
| `ClientProofs.PreparedLands` | crates/client/src/devnet/finalize.rs:121-160 | Preparation reads at three points of a run; if the request and config it read are still there at execution, the built transaction commits iff epoch equal, key version equal, non-zero result hash and slot < expiry: the four conditions the client leaves unchecked |
| `ClientProofs.IdleAtNext` | crates/client/src/devnet/finalize.rs:187-202 | Idle at version + 1 means no later submit has happened |
| `ClientProofs.DigestFollows` | crates/client/src/devnet/finalize.rs:176-186 | A finalized request with the prepared hash carries the prepared digest |
| `ClientProofs.AuthoritativeExact` | crates/client/src/devnet/finalize.rs:164-204 | The post-finalize check on arbitrary fetched state, both directions |
| `ClientProofs.PostCheckExact` | crates/client/src/devnet/finalize.rs:164-213 | With torn reads before and after, acceptance holds iff the request is Finalized with the prepared hash and no later submit happened; the prepared result is then what the chain stores |
| `Adjacency.AdjacencyExact` | crates/client/src/relayer/types.rs:227-250 | The list check accepts iff exactly one coordinator instruction exists, directly after a native verify one |
| `Adjacency.AdjacencyShifts` | crates/client/src/relayer/types.rs:227-250 | Acceptance survives any prefix and suffix without coordinator instructions |
| `Adjacency.PairPassesAnywhere` | crates/client/src/lib.rs:442-473 | Shifted by any such prefix, the pair passes both the list check and the coordinator's introspection |
| `Adjacency.PreparedLandsAnywhere` | crates/client/src/devnet/finalize.rs:121-160 | Among any other instructions that are not the coordinator's, a transaction with the prepared pair commits iff the four unchecked conditions hold |
| `Adjacency.InsertedRejected` | programs/confidential-coordinator/src/ed25519.rs:20-31 | Anything but a verify instruction directly before the coordinator's makes both checks reject |
| `Adjacency.ChainImpliesList` | programs/confidential-coordinator/src/ed25519.rs:20-31 | Where introspection succeeds for the only coordinator instruction, the list check accepts |
| `Adjacency.PositionsSound` | crates/client/src/relayer/types.rs:229-234 | The enumerated positions are exactly the occurrences |
| `Worker.BlobStore.Put` | crates/fhe-worker/src/lib.rs:152-161 | Returns the content hash; an existing blob stays, a new one is renamed into place and no temporary remains |
| `Worker.BlobStore.Get` | crates/fhe-worker/src/lib.rs:163-170 | The caller gets bytes iff the file exists and hashes to the key, and then they are the stored file, even after tampering; a missing file and a wrong hash give different errors |
| `Worker.PutAllPersists` | crates/fhe-worker/src/lib.rs:152-161 | Later puts never change a stored blob |
| `Worker.GetAfterPuts` | crates/fhe-worker/src/lib.rs:152-170 | After any sequence of puts each put blob reads back, or what reads back is an explicit collision with it |
| `Worker.PutFrame` | crates/fhe-worker/src/lib.rs:152-161 | A put leaves every other file and any blob already stored as it was, and no temporary of its own |
| `Worker.LoadU64Exact` | crates/fhe-worker/src/lib.rs:203-213 | A 64-bit ciphertext loads iff the untampered file is its blob under exactly this kind, key version and parameter set |
| `Worker.LoadBoolExact` | crates/fhe-worker/src/lib.rs:215-225 | The same for Boolean ciphertexts |
| `Worker.ForeignBlobRefused` | crates/fhe-worker/src/lib.rs:203-213 | An untampered blob of another kind, key version or parameter set is refused with the error that says so |
| `Worker.ServableExact` | crates/fhe-worker/src/lib.rs:259-289 | The worker serves a request iff it supports it, holds the committed key, has the three inputs stored under the request's own key version and parameters, and can serialize the result |
| `Worker.StoreU64` | crates/fhe-worker/src/lib.rs:181-190 | Stores exactly the wrapped serialization, or nothing on error |
| `Worker.StoreBool` | crates/fhe-worker/src/lib.rs:192-201 | Stores exactly the wrapped serialization, or nothing on error |
| `Worker.ProcessRequest` | crates/fhe-worker/src/lib.rs:259-307 | Checks, reads, circuit, store and signature in order: the store and the signed binding are as specified, and a refused request leaves the store unchanged |
| `EndToEnd.LoadedIsCommitted` | crates/fhe-worker/src/lib.rs:203-213 | Loading a committed hash yields the committed ciphertext or exhibits a collision |
| `EndToEnd.ResultLoads` | crates/fhe-worker/src/lib.rs:215-225 | A served result blob loads from the final store as the ciphertext it was made from, or exhibits a collision |
| `EndToEnd.ServedMeansPolicy` | crates/fhe-worker/src/lib.rs:276-289 | What the worker evaluates is the circuit on the committed ciphertexts and decrypts to the policy of their plaintexts, or a collision is exhibited |
| `EndToEnd.FinalizedWasServed` | programs/confidential-coordinator/src/lib.rs:277-297 | Without forgery and with honest operators, the binding of every Finalized request is one the worker produced when it served that request |
| `EndToEnd.HonestResultAccepted` | crates/client/src/devnet/decode.rs:376-435 | The client accepts an honest worker's output iff the request is Pending, the circuit is the config's and the cache agrees |
| `EndToEnd.FinalizedMeansPolicy` | crates/client/src/lib.rs:482-601 | If no accepted message was forged and operators signed only what the worker produced, every Finalized result_hash loads and decrypts to the policy of the plaintexts behind the request's hashes, or a SHA-256 collision is exhibited |
| `Demo.DemoFinalizes` | crates/client/src/lib.rs:498-590 | The demo's four transactions all commit and leave exactly the final ledger: an idle account at version 1 and the request Finalized on the signed result |
| `Demo.SubmitRuns` | crates/client/src/lib.rs:523-535 | The third transaction, with the arguments 0 and 1, leaves exactly the opened request |
| `FullDemo.DemoServes` | crates/client/src/lib.rs:562-564 | From the three stored inputs the worker serves the submitted request and signs the very binding the chain verifies, or two of the input blobs collide |
| `FullDemo.DemoDecrypts` | crates/client/src/lib.rs:482-601 | The whole demo: inputs stored, request served, four transactions committed; the premises of the end-to-end theorem hold and the finalized hash loads and decrypts to the policy of the three plaintexts, or a collision is exhibited |
| `FullDemo.PremisesHold` | crates/client/src/lib.rs:482-601 | The premises of the end-to-end theorem hold of a concrete run with a Finalized request although every message has a verifying signature under the operator's key |
| `Demo.PreparedCanExpire` | crates/client/src/devnet/finalize.rs:121-160 | A witness: the same prepared transaction commits at once and is refused by the same ledger at the expiry slot |
| `Demo.TornReadCanFail` | crates/client/src/devnet/decode.rs:238-268 | A witness: when finalize lands between the reads, the client refuses a genuine request |

## Left out

- TFHE internals, key generation, key files and server-key serialization: ciphertexts are abstract values.
- SHA-256, Ed25519 and program-address derivation internals: library code, kept as arbitrary functions.
- JSON-RPC, the Relayer's HTTP interface, its polling, retries, API keys and eligibility checks: network plumbing.
- Command-line parsing, `devnet-state.json`, keypair files, path handling, printing and `measure`.
- Hex and JSON forms of requests and results; the client starts from parsed fields.
- Anchor discriminators, Borsh layouts, rent, lamports, bumps, compute units, duplicate-account and writability checks: each keeps only the guard it contributes (record kind, derived address, free address).
- Recovery of a failed I/O operation: a put either happens or does not, and `StorePath` errors cannot occur because a hex digest is always 64 digits.
- Token-2022, settlement, governance, program upgrade, and proof of the operator's honesty: the code does not implement them. Honesty is a premise of `EndToEnd.FinalizedWasServed` and `EndToEnd.FinalizedMeansPolicy` only.
- Relations between the clock and wall time, and the liveness of owner, operator or relayer: `Lifecycle.LockAlwaysReleasable` says which step is enabled, not that somebody takes it.
