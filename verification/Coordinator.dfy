/** The nine coordinator instructions as functions from a ledger to a ledger or an error. */
module Coordinator {
  import opened Types
  import opened Protocol
  import opened Errors
  import opened Ed25519
  import opened State

  const PROGRAM_ID := Pubkey(
    [29, 10, 229, 126, 128, 255, 91, 201, 68, 242, 78, 55, 183, 47, 222, 187,
     122, 27, 214, 238, 178, 168, 127, 124, 206, 184, 105, 168, 217, 51, 178, 168])

  datatype InitializeConfigArgs = InitializeConfigArgs(
    domainId: Bytes32,
    operator: Pubkey,
    keyVersion: u32,
    paramsHash: Bytes32,
    maxRequestLifetimeSlots: u64)

  datatype SubmitArgs = SubmitArgs(amountHash: Bytes32, expectedStateVersion: u64, expectedNonce: u64)

  datatype FinalizeArgs = FinalizeArgs(resultHash: Bytes32, resultType: u8, circuitId: u16)

  /** An instruction with its account keys; `authority` and `owner` have signed the transaction. */
  datatype Call =
    | InitializeConfig(authority: Pubkey, mint: Pubkey, config: Pubkey, init: InitializeConfigArgs)
    | SetPaused(authority: Pubkey, config: Pubkey, paused: bool)
    | RotateOperator(authority: Pubkey, config: Pubkey, newOperator: Pubkey)
    | SetKeyVersion(authority: Pubkey, config: Pubkey, keyVersion: u32)
    | CreateAccount(owner: Pubkey, config: Pubkey, account: Pubkey, balanceHash: Bytes32, limitHash: Bytes32)
    | Submit(owner: Pubkey, config: Pubkey, account: Pubkey, request: Pubkey, submit: SubmitArgs)
    | Cancel(owner: Pubkey, account: Pubkey, request: Pubkey)
    | Expire(account: Pubkey, request: Pubkey)
    | Finalize(config: Pubkey, account: Pubkey, request: Pubkey, instructions: Pubkey, finalize: FinalizeArgs)

  /** What an instruction reads besides the ledger: the clock, the transaction and its own position in it. */
  datatype Context = Context(slot: u64, ixs: Instructions, current: u16)

  // ---- Handler bodies on records ----

  function RequireCtHash(hash: Bytes32): Outcome<Error> {
    Require(!IsZeroHash(hash), InvalidCiphertextRef)
  }

  function InitializedConfig(authority: Pubkey, mint: Pubkey, args: InitializeConfigArgs): Result<Config, Error> {
    var lifetime := args.maxRequestLifetimeSlots;
    :- Require(lifetime > 0, InvalidOperation);
    :- RequireCtHash(args.paramsHash);
    :- Require(args.operator != DEFAULT_PUBKEY, InvalidOperator);
    Ok(Config(authority, mint, args.domainId, args.operator, 1, args.keyVersion, args.paramsHash,
              OPERATION_POLICY_CHECK, CIRCUIT_POLICY_V1, PROTOCOL_VERSION, lifetime, false))
  }

  function RotatedConfig(config: Config, newOperator: Pubkey): Result<Config, Error> {
    var next := CheckedAdd(config.operatorEpoch, 1);
    :- Require(newOperator != DEFAULT_PUBKEY, InvalidOperator);
    match next
    case None => Err(Overflow)
    case Some(epoch) => Ok(config.(operator := newOperator, operatorEpoch := epoch))
  }

  function CreatedAccount(config: Config, configKey: Pubkey, owner: Pubkey, balanceHash: Bytes32, limitHash: Bytes32)
    : Result<ConfidentialAccount, Error>
  {
    var version := config.keyVersion;
    :- RequireCtHash(balanceHash);
    :- RequireCtHash(limitHash);
    :- Require(!config.paused, Paused);
    Ok(ConfidentialAccount(configKey, config.mint, owner, balanceHash, limitHash, 0, 0, DEFAULT_PUBKEY, version))
  }

  function RequestBindingOf(config: Config, request: Request, requestKey: Pubkey): RequestBinding {
    RequestBinding(
      config.protocolVersion, config.domainId, PROGRAM_ID.bytes, request.config.bytes, request.mint.bytes,
      request.confidentialAccount.bytes, requestKey.bytes, request.operation, request.balanceHash, request.amountHash,
      request.limitHash, request.paramsHash, request.stateVersion, request.requestNonce, request.keyVersion,
      request.operatorEpoch, request.expirySlot)
  }

  /** The binding a finalize signs for: the request's own, its stored digest, and the result. */
  function ResultBindingOf(config: Config, request: Request, requestKey: Pubkey, args: FinalizeArgs): ResultBinding {
    ResultBinding(RequestBindingOf(config, request, requestKey), request.requestDigest,
                  args.resultHash, args.resultType, args.circuitId)
  }

  /** A freshly submitted request before its digest is filled in. */
  function DraftRequest(config: Config, configKey: Pubkey, account: ConfidentialAccount, accountKey: Pubkey,
                        owner: Pubkey, amountHash: Bytes32, nonce: u64, slot: u64, expirySlot: u64): Request
  {
    Request(owner, configKey, config.mint, accountKey, config.operation, account.balanceRef, amountHash,
            account.limitRef, config.paramsHash, account.stateVersion, nonce, config.keyVersion,
            config.operatorEpoch, slot, expirySlot, Pending, ZERO32, ZERO32, ZERO32)
  }

  /** Submit's requirements, in order; on success the new nonce and the expiry slot. */
  function SubmitGuards(config: Config, configKey: Pubkey, account: ConfidentialAccount, owner: Pubkey,
                        args: SubmitArgs, slot: u64): Result<(u64, u64), Error>
  {
    var lifetime := config.maxRequestLifetimeSlots;
    :- Require(!config.paused, Paused);
    :- Require(!account.HasPending(), ActiveRequest);
    :- Require(account.config == configKey, ConfigMismatch);
    :- Require(account.mint == config.mint, MintMismatch);
    :- Require(account.owner == owner, Unauthorized);
    :- Require(account.keyVersion == config.keyVersion, InvalidKeyVersion);
    :- Require(account.stateVersion == args.expectedStateVersion, InvalidStateVersion);
    :- RequireCtHash(account.balanceRef);
    :- RequireCtHash(account.limitRef);
    :- RequireCtHash(args.amountHash);
    :- Require(CheckedAdd(account.requestNonce, 1).Some?, Overflow);
    var nonce: u64 := account.requestNonce + 1;
    :- Require(nonce == args.expectedNonce, InvalidNonce);
    :- Require(CheckedAdd(slot, lifetime).Some?, Overflow);
    Ok((nonce, slot + lifetime))
  }

  function Submitted(env: Crypto, config: Config, configKey: Pubkey, account: ConfidentialAccount, accountKey: Pubkey,
                     owner: Pubkey, requestKey: Pubkey, args: SubmitArgs, slot: u64)
    : Result<(ConfidentialAccount, Request), Error>
  {
    var numbers :- SubmitGuards(config, configKey, account, owner, args, slot);
    var draft := DraftRequest(config, configKey, account, accountKey, owner, args.amountHash, numbers.0, slot, numbers.1);
    var request := draft.(requestDigest := RequestDigest(env, RequestBindingOf(config, draft, requestKey)));
    Ok((account.(requestNonce := numbers.0, pendingRequest := requestKey), request))
  }

  function RequirePendingLock(account: ConfidentialAccount, accountKey: Pubkey, request: Request, requestKey: Pubkey)
    : Result<(), Error>
  {
    var locked := account.pendingRequest;
    :- Require(request.status == Pending, InvalidStatus);
    :- Require(account.HasPending(), NoPendingRequest);
    :- Require(locked == requestKey, RequestMismatch);
    :- Require(request.confidentialAccount == accountKey, AccountMismatch);
    Ok(())
  }

  function ReleasedAccount(account: ConfidentialAccount): Result<ConfidentialAccount, Error> {
    match CheckedAdd(account.stateVersion, 1)
    case None => Err(Overflow)
    case Some(version) => Ok(account.(pendingRequest := DEFAULT_PUBKEY, stateVersion := version))
  }

  function Released(account: ConfidentialAccount, request: Request, status: Status): Result<(ConfidentialAccount, Request), Error> {
    var account' :- ReleasedAccount(account);
    Ok((account', request.(status := status)))
  }

  function CancelledPair(account: ConfidentialAccount, accountKey: Pubkey, request: Request, requestKey: Pubkey,
                         owner: Pubkey, slot: u64): Result<(ConfidentialAccount, Request), Error>
  {
    var _ :- RequirePendingLock(account, accountKey, request, requestKey);
    :- Require(account.owner == owner, Unauthorized);
    :- Require(slot < request.expirySlot, Error.Expired);
    Released(account, request, Cancelled)
  }

  function ExpiredPair(account: ConfidentialAccount, accountKey: Pubkey, request: Request, requestKey: Pubkey, slot: u64)
    : Result<(ConfidentialAccount, Request), Error>
  {
    var _ :- RequirePendingLock(account, accountKey, request, requestKey);
    :- Require(slot >= request.expirySlot, NotExpired);
    Released(account, request, Status.Expired)
  }

  /** Finalize's requirements on the records and the clock, in order. */
  function FinalizeRecordGuards(config: Config, configKey: Pubkey, account: ConfidentialAccount, accountKey: Pubkey,
                                request: Request, requestKey: Pubkey, args: FinalizeArgs, slot: u64): Result<(), Error>
  {
    var epoch := request.operatorEpoch;
    :- Require(!config.paused, Paused);
    var _ :- RequirePendingLock(account, accountKey, request, requestKey);
    :- Require(request.config == configKey, ConfigMismatch);
    :- Require(request.mint == config.mint, MintMismatch);
    :- Require(account.config == configKey, ConfigMismatch);
    :- Require(account.mint == config.mint, MintMismatch);
    :- Require(epoch == config.operatorEpoch, InvalidOperatorEpoch);
    :- Require(request.keyVersion == config.keyVersion, InvalidKeyVersion);
    :- Require(account.stateVersion == request.stateVersion, InvalidStateVersion);
    :- Require(account.requestNonce == request.requestNonce, InvalidNonce);
    :- Require(request.operation == config.operation, InvalidOperation);
    :- Require(args.circuitId == config.circuitId, InvalidOperation);
    :- Require(args.resultType == RESULT_TYPE_FHE_BOOL, InvalidResult);
    :- RequireCtHash(args.resultHash);
    :- Require(slot < request.expirySlot, Error.Expired);
    Ok(())
  }

  /** All of finalize's requirements; on success the binding whose signature was verified. */
  function FinalizeGuards(env: Crypto, ctx: Context, config: Config, configKey: Pubkey, account: ConfidentialAccount,
                          accountKey: Pubkey, request: Request, requestKey: Pubkey, args: FinalizeArgs)
    : Result<ResultBinding, Error>
  {
    var _ :- FinalizeRecordGuards(config, configKey, account, accountKey, request, requestKey, args, ctx.slot);
    var binding := ResultBindingOf(config, request, requestKey, args);
    :- Require(RequestDigest(env, binding.request) == request.requestDigest, RequestMismatch);
    var _ :- VerifyOperatorMessage(ctx.ixs, ctx.current, config.operator, EncodeResult(binding));
    Ok(binding)
  }

  /** The request with its verified result written. */
  function FinalizedRequest(env: Crypto, config: Config, request: Request, requestKey: Pubkey, args: FinalizeArgs): Request {
    request.(status := Finalized, resultHash := args.resultHash,
             resultDigest := ResultDigest(env, ResultBindingOf(config, request, requestKey, args)))
  }

  function FinalizedPair(env: Crypto, ctx: Context, config: Config, configKey: Pubkey, account: ConfidentialAccount,
                         accountKey: Pubkey, request: Request, requestKey: Pubkey, args: FinalizeArgs)
    : Result<(ConfidentialAccount, Request), Error>
  {
    var _ :- FinalizeGuards(env, ctx, config, configKey, account, accountKey, request, requestKey, args);
    var account' :- ReleasedAccount(account);
    Ok((account', FinalizedRequest(env, config, request, requestKey, args)))
  }

  // ---- Account constraints, then the handler ----
  // Anchor first loads every existing account, then runs `init`, then checks the rest in field order.

  function ExecInitialize(env: Crypto, l: Ledger, call: Call): Result<Ledger, Error>
    requires call.InitializeConfig?
  {
    var key := call.config;
    :- Require(key == ConfigPda(env, call.mint), ConstraintSeeds);
    :- Require(key !in l, AddressInUse);
    var config :- InitializedConfig(call.authority, call.mint, call.init);
    Ok(l[key := ConfigRecord(config)])
  }

  /** The shared constraint of the three admin instructions. */
  function AdminConfig(l: Ledger, authority: Pubkey, configKey: Pubkey): Result<Config, Error> {
    var config :- LoadConfig(l, configKey);
    :- Require(config.authority == authority, Unauthorized);
    Ok(config)
  }

  function ExecSetPaused(l: Ledger, call: Call): Result<Ledger, Error>
    requires call.SetPaused?
  {
    var config :- AdminConfig(l, call.authority, call.config);
    Ok(l[call.config := ConfigRecord(config.(paused := call.paused))])
  }

  function ExecRotate(l: Ledger, call: Call): Result<Ledger, Error>
    requires call.RotateOperator?
  {
    var config :- AdminConfig(l, call.authority, call.config);
    var config' :- RotatedConfig(config, call.newOperator);
    Ok(l[call.config := ConfigRecord(config')])
  }

  function ExecSetKeyVersion(l: Ledger, call: Call): Result<Ledger, Error>
    requires call.SetKeyVersion?
  {
    var config :- AdminConfig(l, call.authority, call.config);
    Ok(l[call.config := ConfigRecord(config.(keyVersion := call.keyVersion))])
  }

  function ExecCreate(env: Crypto, l: Ledger, call: Call): Result<Ledger, Error>
    requires call.CreateAccount?
  {
    var config :- LoadConfig(l, call.config);
    :- Require(call.account == AccountPda(env, config.mint, call.owner), ConstraintSeeds);
    :- Require(call.account !in l, AddressInUse);
    :- Require(call.config == ConfigPda(env, config.mint), ConstraintSeeds);
    var account :- CreatedAccount(config, call.config, call.owner, call.balanceHash, call.limitHash);
    Ok(l[call.account := AccountRecord(account)])
  }

  function SubmitConstraints(env: Crypto, l: Ledger, call: Call): Result<(Config, ConfidentialAccount), Error>
    requires call.Submit?
  {
    var config :- LoadConfig(l, call.config);
    var account :- LoadAccount(l, call.account);
    :- Require(call.request == RequestPda(env, call.account, call.submit.expectedNonce), ConstraintSeeds);
    :- Require(call.request !in l, AddressInUse);
    :- Require(call.config == ConfigPda(env, config.mint), ConstraintSeeds);
    :- Require(call.account == AccountPda(env, config.mint, call.owner), ConstraintSeeds);
    :- Require(account.owner == call.owner, Unauthorized);
    :- Require(account.config == call.config, ConfigMismatch);
    Ok((config, account))
  }

  function ExecSubmit(env: Crypto, l: Ledger, ctx: Context, call: Call): Result<Ledger, Error>
    requires call.Submit?
  {
    var loaded :- SubmitConstraints(env, l, call);
    var pair :- Submitted(env, loaded.0, call.config, loaded.1, call.account, call.owner, call.request, call.submit, ctx.slot);
    Ok(Store(l, call.account, call.request, pair))
  }

  function Store(l: Ledger, accountKey: Pubkey, requestKey: Pubkey, pair: (ConfidentialAccount, Request)): Ledger {
    l[accountKey := AccountRecord(pair.0)][requestKey := RequestRecord(pair.1)]
  }

  function CancelConstraints(env: Crypto, l: Ledger, call: Call): Result<(ConfidentialAccount, Request), Error>
    requires call.Cancel?
  {
    var account :- LoadAccount(l, call.account);
    var request :- LoadRequest(l, call.request);
    :- Require(call.account == AccountPda(env, account.mint, call.owner), ConstraintSeeds);
    :- Require(account.owner == call.owner, Unauthorized);
    :- Require(call.request == RequestPda(env, call.account, request.requestNonce), ConstraintSeeds);
    :- Require(request.confidentialAccount == call.account, AccountMismatch);
    Ok((account, request))
  }

  function ExecCancel(env: Crypto, l: Ledger, ctx: Context, call: Call): Result<Ledger, Error>
    requires call.Cancel?
  {
    var loaded :- CancelConstraints(env, l, call);
    var pair :- CancelledPair(loaded.0, call.account, loaded.1, call.request, call.owner, ctx.slot);
    Ok(Store(l, call.account, call.request, pair))
  }

  function ExpireConstraints(env: Crypto, l: Ledger, call: Call): Result<(ConfidentialAccount, Request), Error>
    requires call.Expire?
  {
    var account :- LoadAccount(l, call.account);
    var request :- LoadRequest(l, call.request);
    :- Require(call.account == AccountPda(env, account.mint, account.owner), ConstraintSeeds);
    :- Require(call.request == RequestPda(env, call.account, request.requestNonce), ConstraintSeeds);
    :- Require(request.confidentialAccount == call.account, AccountMismatch);
    Ok((account, request))
  }

  function ExecExpire(env: Crypto, l: Ledger, ctx: Context, call: Call): Result<Ledger, Error>
    requires call.Expire?
  {
    var loaded :- ExpireConstraints(env, l, call);
    var pair :- ExpiredPair(loaded.0, call.account, loaded.1, call.request, ctx.slot);
    Ok(Store(l, call.account, call.request, pair))
  }

  function FinalizeConstraints(env: Crypto, l: Ledger, call: Call): Result<(Config, ConfidentialAccount, Request), Error>
    requires call.Finalize?
  {
    var config :- LoadConfig(l, call.config);
    var account :- LoadAccount(l, call.account);
    var request :- LoadRequest(l, call.request);
    :- Require(call.config == ConfigPda(env, config.mint), ConstraintSeeds);
    :- Require(call.account == AccountPda(env, config.mint, account.owner), ConstraintSeeds);
    :- Require(account.config == call.config, ConfigMismatch);
    :- Require(call.request == RequestPda(env, call.account, request.requestNonce), ConstraintSeeds);
    :- Require(request.config == call.config, ConfigMismatch);
    :- Require(request.confidentialAccount == call.account, AccountMismatch);
    :- Require(call.instructions == INSTRUCTIONS_ID, ConstraintAddress);
    Ok((config, account, request))
  }

  function ExecFinalize(env: Crypto, l: Ledger, ctx: Context, call: Call): Result<Ledger, Error>
    requires call.Finalize?
  {
    var loaded :- FinalizeConstraints(env, l, call);
    var pair :- FinalizedPair(env, ctx, loaded.0, call.config, loaded.1, call.account, loaded.2, call.request, call.finalize);
    Ok(Store(l, call.account, call.request, pair))
  }

  /** One coordinator instruction: the whole new ledger, or an error and no change. */
  function Exec(env: Crypto, l: Ledger, ctx: Context, call: Call): Result<Ledger, Error> {
    match call
    case InitializeConfig(_, _, _, _) => ExecInitialize(env, l, call)
    case SetPaused(_, _, _) => ExecSetPaused(l, call)
    case RotateOperator(_, _, _) => ExecRotate(l, call)
    case SetKeyVersion(_, _, _) => ExecSetKeyVersion(l, call)
    case CreateAccount(_, _, _, _, _) => ExecCreate(env, l, call)
    case Submit(_, _, _, _, _) => ExecSubmit(env, l, ctx, call)
    case Cancel(_, _, _) => ExecCancel(env, l, ctx, call)
    case Expire(_, _) => ExecExpire(env, l, ctx, call)
    case Finalize(_, _, _, _, _) => ExecFinalize(env, l, ctx, call)
  }
}
