/** The off-chain client: fetching and verifying accounts, the submit gate, preparing and checking a finalize. */
module Client {
  import opened Types
  import opened Protocol
  import opened Ed25519
  import opened State
  import opened Coordinator
  import opened Runs

  datatype LabError =
    | AccountMissing
    | RequestConfigMismatch
    | RequestMintMismatch
    | RequestAccountMismatch
    | AccountConfigMismatch
    | AccountMintMismatch
    | RequesterMismatch
    | OperationMismatch
    | ParamsMismatch
    | ConfigPdaMismatch
    | AccountPdaMismatch
    | RequestPdaMismatch
    | PendingPointerMismatch
    | PendingNonceMismatch
    | PendingVersionMismatch
    | DigestMismatch
    | StaleCache
    | NotPending
    | RequestDigestMismatch
    | OperatorMismatch
    | UnexpectedResultType
    | CircuitMismatch
    | ResultDigestMismatch
    | BadSignature
    | ConfigPaused
    | NotOwner
    | KeyVersionMismatch
    | AlreadyPending
    | NonceOverflow
    | NotFinalized
    | ResultHashMismatch
    | StillPending
    | VersionNotAdvanced
    | VersionOverflow
    | NotOneFinalize
    | NotAdjacent

  // ---- decode.rs ----

  datatype VerifiedRequest = VerifiedRequest(
    configAddress: Pubkey,
    config: Config,
    accountAddress: Pubkey,
    account: ConfidentialAccount,
    requestAddress: Pubkey,
    request: Request,
    binding: RequestBinding)

  function FetchConfig(l: Ledger, k: Pubkey): Result<Config, LabError> {
    if IsConfig(l, k) then Ok(ConfigAt(l, k)) else Err(AccountMissing)
  }

  function FetchAccount(l: Ledger, k: Pubkey): Result<ConfidentialAccount, LabError> {
    if IsAccount(l, k) then Ok(AccountAt(l, k)) else Err(AccountMissing)
  }

  function FetchRequest(l: Ledger, k: Pubkey): Result<Request, LabError> {
    if IsRequest(l, k) then Ok(RequestAt(l, k)) else Err(AccountMissing)
  }

  function ReconstructRequestBinding(config: Config, configAddress: Pubkey, request: Request, accountAddress: Pubkey,
                                     requestAddress: Pubkey): RequestBinding
  {
    RequestBinding(
      config.protocolVersion, config.domainId, PROGRAM_ID.bytes, configAddress.bytes, request.mint.bytes,
      accountAddress.bytes, requestAddress.bytes, request.operation, request.balanceHash, request.amountHash,
      request.limitHash, request.paramsHash, request.stateVersion, request.requestNonce, request.keyVersion,
      request.operatorEpoch, request.expirySlot)
  }

  /** The lock fields are compared only while the request read is Pending. */
  function RequireLock(requestAddress: Pubkey, request: Request, account: ConfidentialAccount): Outcome<LabError> {
    if request.status != Pending then Pass
    else if account.pendingRequest != requestAddress then Fail(PendingPointerMismatch)
    else if account.requestNonce != request.requestNonce then Fail(PendingNonceMismatch)
    else if account.stateVersion != request.stateVersion then Fail(PendingVersionMismatch)
    else Pass
  }

  function VerifyRequestAccounts(env: Crypto, requestAddress: Pubkey, request: Request, configAddress: Pubkey, config: Config,
                                 accountAddress: Pubkey, account: ConfidentialAccount): Result<RequestBinding, LabError>
  {
    var mint := request.mint;
    :- Require(request.config == configAddress, RequestConfigMismatch);
    :- Require(mint == config.mint, RequestMintMismatch);
    :- Require(request.confidentialAccount == accountAddress, RequestAccountMismatch);
    :- Require(account.config == configAddress, AccountConfigMismatch);
    :- Require(account.mint == config.mint, AccountMintMismatch);
    :- Require(request.requester == account.owner, RequesterMismatch);
    :- Require(request.operation == config.operation, OperationMismatch);
    :- Require(request.paramsHash == config.paramsHash, ParamsMismatch);
    :- Require(configAddress == ConfigPda(env, mint), ConfigPdaMismatch);
    :- Require(accountAddress == AccountPda(env, mint, account.owner), AccountPdaMismatch);
    :- Require(requestAddress == RequestPda(env, accountAddress, request.requestNonce), RequestPdaMismatch);
    :- RequireLock(requestAddress, request, account);
    var binding := ReconstructRequestBinding(config, configAddress, request, accountAddress, requestAddress);
    :- Require(RequestDigest(env, binding) == request.requestDigest, DigestMismatch);
    Ok(binding)
  }

  /** Three separate reads: the request in `l1`, then its config in `l2`, then its account in `l3`. */
  function FetchAndVerifyRequest(env: Crypto, l1: Ledger, l2: Ledger, l3: Ledger, requestAddress: Pubkey)
    : Result<VerifiedRequest, LabError>
  {
    var request :- FetchRequest(l1, requestAddress);
    var config :- FetchConfig(l2, request.config);
    var account :- FetchAccount(l3, request.confidentialAccount);
    var binding :- VerifyRequestAccounts(env, requestAddress, request, request.config, config, request.confidentialAccount, account);
    Ok(VerifiedRequest(request.config, config, request.confidentialAccount, account, requestAddress, request, binding))
  }

  /** The fields of `result.json`. */
  datatype ParsedResult = ParsedResult(
    resultHash: Bytes32,
    requestDigest: Bytes32,
    resultDigest: Bytes32,
    signature: Bytes64,
    operator: Bytes32,
    resultType: u8,
    circuitId: u16)

  function ResultBindingFrom(env: Crypto, authoritative: RequestBinding, parsed: ParsedResult): ResultBinding {
    ResultBinding(authoritative, RequestDigest(env, authoritative), parsed.resultHash, parsed.resultType, parsed.circuitId)
  }

  function ValidateFinalizeConsistency(env: Crypto, verified: VerifiedRequest, cached: Option<RequestBinding>, parsed: ParsedResult)
    : Result<ResultBinding, LabError>
  {
    var request := verified.request;
    :- Require(cached.None? || verified.binding == cached.value, StaleCache);
    :- Require(request.status == Pending, NotPending);
    :- Require(request.requestDigest == parsed.requestDigest, RequestDigestMismatch);
    :- Require(parsed.operator == verified.config.operator.bytes, OperatorMismatch);
    :- Require(parsed.resultType == RESULT_TYPE_FHE_BOOL, UnexpectedResultType);
    :- Require(parsed.circuitId == verified.config.circuitId, CircuitMismatch);
    var binding := ResultBindingFrom(env, verified.binding, parsed);
    :- Require(ResultDigest(env, binding) == parsed.resultDigest, ResultDigestMismatch);
    :- Require(env.ed25519Verify(parsed.operator, EncodeResult(binding), parsed.signature), BadSignature);
    Ok(binding)
  }

  // ---- commands.rs: the gate of submit ----

  /** The checks before sending, and the instruction sent. */
  function SubmitGate(env: Crypto, l: Ledger, configAddress: Pubkey, accountAddress: Pubkey, owner: Pubkey, amountHash: Bytes32)
    : Result<Call, LabError>
  {
    var config :- FetchConfig(l, configAddress);
    var account :- FetchAccount(l, accountAddress);
    :- Require(!config.paused, ConfigPaused);
    :- Require(account.config == configAddress, AccountConfigMismatch);
    :- Require(account.mint == config.mint, AccountMintMismatch);
    :- Require(account.owner == owner, NotOwner);
    :- Require(account.keyVersion == config.keyVersion, KeyVersionMismatch);
    :- Require(account.pendingRequest == DEFAULT_PUBKEY, AlreadyPending);
    :- Require(CheckedAdd(account.requestNonce, 1).Some?, NonceOverflow);
    var nonce: u64 := account.requestNonce + 1;
    Ok(Submit(owner, configAddress, accountAddress, RequestPda(env, accountAddress, nonce),
              SubmitArgs(amountHash, account.stateVersion, nonce)))
  }

  // ---- relayer/types.rs: the adjacency check ----

  /** Where `id` occurs, counting from `start`. */
  function Positions(ids: seq<Pubkey>, id: Pubkey, start: nat): seq<nat> {
    if ids == [] then []
    else (if ids[0] == id then [start] else []) + Positions(ids[1..], id, start + 1)
  }

  function RequireEd25519BeforeFinalize(ids: seq<Pubkey>): Result<(), LabError> {
    var positions := Positions(ids, PROGRAM_ID, 0);
    :- Require(|positions| == 1, NotOneFinalize);
    var at := positions[0];
    :- Require(0 < at <= |ids| && ids[at - 1] == ED25519_PROGRAM_ID, NotAdjacent);
    Ok(())
  }

  function ProgramIds(ixs: seq<Instruction>): seq<Pubkey> {
    seq(|ixs|, i requires 0 <= i < |ixs| => ixs[i].programId)
  }

  // ---- finalize.rs ----

  datatype PreparedFinalize = PreparedFinalize(
    requestAddress: Pubkey,
    configAddress: Pubkey,
    accountAddress: Pubkey,
    priorStateVersion: u64,
    parsed: ParsedResult,
    binding: ResultBinding,
    resultHash: Bytes32,
    resultDigest: Bytes32)

  function PrepareFinalize(env: Crypto, l1: Ledger, l2: Ledger, l3: Ledger, requestAddress: Pubkey,
                           cached: Option<RequestBinding>, parsed: ParsedResult): Result<PreparedFinalize, LabError>
  {
    var verified :- FetchAndVerifyRequest(env, l1, l2, l3, requestAddress);
    var binding :- ValidateFinalizeConsistency(env, verified, cached, parsed);
    :- Require(!verified.config.paused, ConfigPaused);
    Ok(PreparedFinalize(verified.requestAddress, verified.configAddress, verified.accountAddress, verified.account.stateVersion,
                        parsed, binding, parsed.resultHash, ResultDigest(env, binding)))
  }

  /** The two instructions; `data` is the serialized finalize call, whatever its bytes. */
  function FinalizeInstructions(p: PreparedFinalize, data: Bytes): Instructions {
    [NewVerifyInstruction(EncodeResult(p.binding), p.parsed.signature, p.parsed.operator), Instruction(PROGRAM_ID, data)]
  }

  function InstructionsForPayer(p: PreparedFinalize, data: Bytes): Result<Instructions, LabError> {
    var ixs := FinalizeInstructions(p, data);
    var _ :- RequireEd25519BeforeFinalize(ProgramIds(ixs));
    Ok(ixs)
  }

  /** The call the second instruction makes. */
  function FinalizeCall(p: PreparedFinalize): Call {
    Finalize(p.configAddress, p.accountAddress, p.requestAddress, INSTRUCTIONS_ID,
             FinalizeArgs(p.binding.resultHash, p.binding.resultType, p.binding.circuitId))
  }

  function FinalizeTransaction(p: PreparedFinalize, data: Bytes): Transaction {
    Transaction(FinalizeInstructions(p, data), [Invocation(1, FinalizeCall(p))])
  }

  function VerifyAuthoritativeFinalized(post: VerifiedRequest, p: PreparedFinalize): Result<(), LabError> {
    var request := post.request;
    :- Require(request.status == Finalized, NotFinalized);
    :- Require(request.resultHash == p.resultHash, ResultHashMismatch);
    :- Require(request.resultDigest == p.resultDigest, ResultDigestMismatch);
    :- Require(post.account.pendingRequest == DEFAULT_PUBKEY, StillPending);
    :- Require(CheckedAdd(p.priorStateVersion, 1).Some?, VersionOverflow);
    :- Require(post.account.stateVersion == p.priorStateVersion + 1, VersionNotAdvanced);
    Ok(())
  }

  function RefetchAndVerifyFinalized(env: Crypto, l1: Ledger, l2: Ledger, l3: Ledger, p: PreparedFinalize)
    : Result<VerifiedRequest, LabError>
  {
    var post :- FetchAndVerifyRequest(env, l1, l2, l3, p.requestAddress);
    var _ :- VerifyAuthoritativeFinalized(post, p);
    Ok(post)
  }
}
