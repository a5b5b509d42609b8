/**
 * The handlers as they run: account objects whose fields are updated in place, and the bank that
 * loads them, dispatches one call, and writes them back only when the call succeeds.
 */
module Handlers {
  import opened Types
  import opened Protocol
  import opened Errors
  import opened Ed25519
  import opened State
  import opened Coordinator
  import opened Runs

  class ConfigObject {
    var authority: Pubkey
    var mint: Pubkey
    var domainId: Bytes32
    var operator: Pubkey
    var operatorEpoch: u64
    var keyVersion: u32
    var paramsHash: Bytes32
    var operation: u16
    var circuitId: u16
    var protocolVersion: u16
    var maxRequestLifetimeSlots: u64
    var paused: bool

    function View(): Config
      reads this
    {
      Config(authority, mint, domainId, operator, operatorEpoch, keyVersion, paramsHash, operation, circuitId,
             protocolVersion, maxRequestLifetimeSlots, paused)
    }

    /** Deserialization of a stored record. */
    constructor (c: Config)
      ensures View() == c
    {
      authority, mint, domainId, operator := c.authority, c.mint, c.domainId, c.operator;
      operatorEpoch, keyVersion, paramsHash := c.operatorEpoch, c.keyVersion, c.paramsHash;
      operation, circuitId, protocolVersion := c.operation, c.circuitId, c.protocolVersion;
      maxRequestLifetimeSlots, paused := c.maxRequestLifetimeSlots, c.paused;
    }

    /** A freshly allocated, zeroed record. */
    constructor Zeroed()
    {
      authority, mint, domainId, operator := DEFAULT_PUBKEY, DEFAULT_PUBKEY, ZERO32, DEFAULT_PUBKEY;
      operatorEpoch, keyVersion, paramsHash, operation, circuitId, protocolVersion := 0, 0, ZERO32, 0, 0, 0;
      maxRequestLifetimeSlots, paused := 0, false;
    }
  }

  class AccountObject {
    var config: Pubkey
    var mint: Pubkey
    var owner: Pubkey
    var balanceRef: Bytes32
    var limitRef: Bytes32
    var stateVersion: u64
    var requestNonce: u64
    var pendingRequest: Pubkey
    var keyVersion: u32

    function View(): ConfidentialAccount
      reads this
    {
      ConfidentialAccount(config, mint, owner, balanceRef, limitRef, stateVersion, requestNonce, pendingRequest, keyVersion)
    }

    constructor (a: ConfidentialAccount)
      ensures View() == a
    {
      config, mint, owner, balanceRef, limitRef := a.config, a.mint, a.owner, a.balanceRef, a.limitRef;
      stateVersion, requestNonce, pendingRequest, keyVersion := a.stateVersion, a.requestNonce, a.pendingRequest, a.keyVersion;
    }

    /** A freshly allocated, zeroed record. */
    constructor Zeroed()
    {
      config, mint, owner, balanceRef, limitRef := DEFAULT_PUBKEY, DEFAULT_PUBKEY, DEFAULT_PUBKEY, ZERO32, ZERO32;
      stateVersion, requestNonce, pendingRequest, keyVersion := 0, 0, DEFAULT_PUBKEY, 0;
    }

    /** The lock is cleared before the checked increment, so an overflow leaves it cleared; the nonce never goes back. */
    method ReleaseAccountLock() returns (r: Result<(), Error>)
      modifies this`pendingRequest, this`stateVersion
      ensures match ReleasedAccount(old(View()))
              case Ok(a) => r == Ok(()) && View() == a
              case Err(e) => r == Err(e) && View() == old(View()).(pendingRequest := DEFAULT_PUBKEY)
    {
      pendingRequest := DEFAULT_PUBKEY;
      var next := CheckedAdd(stateVersion, 1);
      if next.None? {
        return Err(Overflow);
      }
      stateVersion := next.value;
      return Ok(());
    }
  }

  class RequestObject {
    var requester: Pubkey
    var config: Pubkey
    var mint: Pubkey
    var confidentialAccount: Pubkey
    var operation: u16
    var balanceHash: Bytes32
    var amountHash: Bytes32
    var limitHash: Bytes32
    var paramsHash: Bytes32
    var stateVersion: u64
    var requestNonce: u64
    var keyVersion: u32
    var operatorEpoch: u64
    var createdSlot: u64
    var expirySlot: u64
    var status: Status
    var requestDigest: Bytes32
    var resultHash: Bytes32
    var resultDigest: Bytes32

    function View(): Request
      reads this
    {
      Request(requester, config, mint, confidentialAccount, operation, balanceHash, amountHash, limitHash, paramsHash,
              stateVersion, requestNonce, keyVersion, operatorEpoch, createdSlot, expirySlot, status, requestDigest,
              resultHash, resultDigest)
    }

    constructor (r: Request)
      ensures View() == r
    {
      requester, config, mint, confidentialAccount := r.requester, r.config, r.mint, r.confidentialAccount;
      operation, balanceHash, amountHash, limitHash := r.operation, r.balanceHash, r.amountHash, r.limitHash;
      paramsHash, stateVersion, requestNonce, keyVersion := r.paramsHash, r.stateVersion, r.requestNonce, r.keyVersion;
      operatorEpoch, createdSlot, expirySlot, status := r.operatorEpoch, r.createdSlot, r.expirySlot, r.status;
      requestDigest, resultHash, resultDigest := r.requestDigest, r.resultHash, r.resultDigest;
    }

    /** A freshly allocated, zeroed record. */
    constructor Zeroed()
    {
      requester, config, mint, confidentialAccount := DEFAULT_PUBKEY, DEFAULT_PUBKEY, DEFAULT_PUBKEY, DEFAULT_PUBKEY;
      operation, balanceHash, amountHash, limitHash, paramsHash := 0, ZERO32, ZERO32, ZERO32, ZERO32;
      stateVersion, requestNonce, keyVersion, operatorEpoch, createdSlot, expirySlot := 0, 0, 0, 0, 0, 0;
      status, requestDigest, resultHash, resultDigest := Pending, ZERO32, ZERO32, ZERO32;
    }
  }

  // ---- Handlers ----

  method InitializeHandler(config: ConfigObject, authority: Pubkey, mint: Pubkey, args: InitializeConfigArgs)
    returns (r: Result<(), Error>)
    modifies config
    ensures match InitializedConfig(authority, mint, args)
            case Ok(c) => r == Ok(()) && config.View() == c
            case Err(e) => r == Err(e) && config.View() == old(config.View())
  {
    if args.maxRequestLifetimeSlots == 0 { return Err(InvalidOperation); }
    if IsZeroHash(args.paramsHash) { return Err(InvalidCiphertextRef); }
    if args.operator == DEFAULT_PUBKEY { return Err(InvalidOperator); }
    config.authority := authority;
    config.mint := mint;
    config.domainId := args.domainId;
    config.operator := args.operator;
    config.operatorEpoch := 1;
    config.keyVersion := args.keyVersion;
    config.paramsHash := args.paramsHash;
    config.operation := OPERATION_POLICY_CHECK;
    config.circuitId := CIRCUIT_POLICY_V1;
    config.protocolVersion := PROTOCOL_VERSION;
    config.maxRequestLifetimeSlots := args.maxRequestLifetimeSlots;
    config.paused := false;
    return Ok(());
  }

  method CreateHandler(config: ConfigObject, configKey: Pubkey, account: AccountObject, owner: Pubkey,
                       balanceHash: Bytes32, limitHash: Bytes32) returns (r: Result<(), Error>)
    modifies account
    ensures match CreatedAccount(config.View(), configKey, owner, balanceHash, limitHash)
            case Ok(a) => r == Ok(()) && account.View() == a
            case Err(e) => r == Err(e) && account.View() == old(account.View())
  {
    if IsZeroHash(balanceHash) { return Err(InvalidCiphertextRef); }
    if IsZeroHash(limitHash) { return Err(InvalidCiphertextRef); }
    if config.paused { return Err(Paused); }
    account.config := configKey;
    account.mint := config.mint;
    account.owner := owner;
    account.balanceRef := balanceHash;
    account.limitRef := limitHash;
    account.stateVersion := 0;
    account.requestNonce := 0;
    account.pendingRequest := DEFAULT_PUBKEY;
    account.keyVersion := config.keyVersion;
    return Ok(());
  }

  method SetPausedHandler(config: ConfigObject, paused: bool)
    modifies config
    ensures config.View() == old(config.View()).(paused := paused)
  {
    config.paused := paused;
  }

  /** The operator is written before the checked increment; the bank discards it when the increment overflows. */
  method RotateHandler(config: ConfigObject, newOperator: Pubkey) returns (r: Result<(), Error>)
    modifies config
    ensures match RotatedConfig(old(config.View()), newOperator)
            case Ok(c) => r == Ok(()) && config.View() == c
            case Err(e) =>
              r == Err(e) && config.View() == old(config.View()).(operator := if e == Overflow then newOperator else old(config.operator))
  {
    if newOperator == DEFAULT_PUBKEY {
      return Err(InvalidOperator);
    }
    config.operator := newOperator;
    var next := CheckedAdd(config.operatorEpoch, 1);
    if next.None? {
      return Err(Overflow);
    }
    config.operatorEpoch := next.value;
    return Ok(());
  }

  method SetKeyVersionHandler(config: ConfigObject, keyVersion: u32)
    modifies config
    ensures config.View() == old(config.View()).(keyVersion := keyVersion)
  {
    config.keyVersion := keyVersion;
  }

  /** Submit's field assignments: who and what. */
  method WriteCommitments(config: ConfigObject, configKey: Pubkey, account: AccountObject, accountKey: Pubkey, owner: Pubkey,
                          request: RequestObject, amountHash: Bytes32)
    modifies request`requester, request`config, request`mint, request`confidentialAccount, request`operation,
             request`balanceHash, request`amountHash, request`limitHash, request`paramsHash
    ensures request.requester == owner && request.config == configKey && request.mint == config.mint
    ensures request.confidentialAccount == accountKey && request.operation == config.operation
    ensures request.balanceHash == account.balanceRef && request.amountHash == amountHash
    ensures request.limitHash == account.limitRef && request.paramsHash == config.paramsHash
  {
    request.requester := owner;
    request.config := configKey;
    request.mint := config.mint;
    request.confidentialAccount := accountKey;
    request.operation := config.operation;
    request.balanceHash := account.balanceRef;
    request.amountHash := amountHash;
    request.limitHash := account.limitRef;
    request.paramsHash := config.paramsHash;
  }

  /** Submit's field assignments: versions, slots, and a pending status without a result. */
  method WriteTerms(config: ConfigObject, account: AccountObject, request: RequestObject, nonce: u64, slot: u64, expirySlot: u64)
    modifies request`stateVersion, request`requestNonce, request`keyVersion, request`operatorEpoch, request`createdSlot,
             request`expirySlot, request`status, request`resultHash, request`resultDigest
    ensures request.stateVersion == account.stateVersion && request.requestNonce == nonce
    ensures request.keyVersion == config.keyVersion && request.operatorEpoch == config.operatorEpoch
    ensures request.createdSlot == slot && request.expirySlot == expirySlot
    ensures request.status == Pending && request.resultHash == ZERO32 && request.resultDigest == ZERO32
  {
    request.stateVersion := account.stateVersion;
    request.requestNonce := nonce;
    request.keyVersion := config.keyVersion;
    request.operatorEpoch := config.operatorEpoch;
    request.createdSlot := slot;
    request.expirySlot := expirySlot;
    request.status := Pending;
    request.resultHash := ZERO32;
    request.resultDigest := ZERO32;
  }

  /** All of submit's field assignments up to the digest. */
  method WriteDraft(config: ConfigObject, configKey: Pubkey, account: AccountObject, accountKey: Pubkey, owner: Pubkey,
                    request: RequestObject, amountHash: Bytes32, nonce: u64, slot: u64, expirySlot: u64)
    modifies request
    ensures request.View() == DraftRequest(config.View(), configKey, account.View(), accountKey, owner, amountHash, nonce, slot, expirySlot)
                              .(requestDigest := old(request.requestDigest))
  {
    WriteCommitments(config, configKey, account, accountKey, owner, request, amountHash);
    WriteTerms(config, account, request, nonce, slot, expirySlot);
  }

  /** The digest covers none of itself. */
  lemma BindingIgnoresDigest(c: Config, r: Request, k: Pubkey, digest: Bytes32)
    ensures RequestBindingOf(c, r.(requestDigest := digest), k) == RequestBindingOf(c, r, k)
  {
  }

  /** Submit's requirements, checked one after the other. */
  method CheckSubmit(config: ConfigObject, configKey: Pubkey, account: AccountObject, owner: Pubkey, args: SubmitArgs, slot: u64)
    returns (r: Result<(u64, u64), Error>)
    ensures r == SubmitGuards(config.View(), configKey, account.View(), owner, args, slot)
  {
    if config.paused { return Err(Paused); }
    if account.pendingRequest != DEFAULT_PUBKEY { return Err(ActiveRequest); }
    if account.config != configKey { return Err(ConfigMismatch); }
    if account.mint != config.mint { return Err(MintMismatch); }
    if account.owner != owner { return Err(Unauthorized); }
    if account.keyVersion != config.keyVersion { return Err(InvalidKeyVersion); }
    if account.stateVersion != args.expectedStateVersion { return Err(InvalidStateVersion); }
    if IsZeroHash(account.balanceRef) { return Err(InvalidCiphertextRef); }
    if IsZeroHash(account.limitRef) { return Err(InvalidCiphertextRef); }
    if IsZeroHash(args.amountHash) { return Err(InvalidCiphertextRef); }
    var nonce := CheckedAdd(account.requestNonce, 1);
    if nonce.None? { return Err(Overflow); }
    if nonce.value != args.expectedNonce { return Err(InvalidNonce); }
    var expirySlot := CheckedAdd(slot, config.maxRequestLifetimeSlots);
    if expirySlot.None? { return Err(Overflow); }
    return Ok((nonce.value, expirySlot.value));
  }

  method SubmitHandler(env: Crypto, config: ConfigObject, configKey: Pubkey, account: AccountObject, accountKey: Pubkey,
                       owner: Pubkey, request: RequestObject, requestKey: Pubkey, args: SubmitArgs, slot: u64)
    returns (r: Result<(), Error>)
    modifies account, request
    ensures var spec := Submitted(env, config.View(), configKey, old(account.View()), accountKey, owner, requestKey, args, slot);
            match spec
            case Ok(pair) => r == Ok(()) && account.View() == pair.0 && request.View() == pair.1
            case Err(e) => r == Err(e) && account.View() == old(account.View()) && request.View() == old(request.View())
  {
    var numbers := CheckSubmit(config, configKey, account, owner, args, slot);
    if numbers.Err? {
      return Err(numbers.error);
    }
    WriteDraft(config, configKey, account, accountKey, owner, request, args.amountHash, numbers.value.0, slot, numbers.value.1);
    BindingIgnoresDigest(config.View(), DraftRequest(config.View(), configKey, account.View(), accountKey, owner, args.amountHash,
                                                     numbers.value.0, slot, numbers.value.1), requestKey, request.requestDigest);
    request.requestDigest := RequestDigest(env, RequestBindingOf(config.View(), request.View(), requestKey));
    account.requestNonce := numbers.value.0;
    account.pendingRequest := requestKey;
    return Ok(());
  }

  /** The status is written first, then the lock; an overflow leaves both written and the version as it was. */
  method ReleaseLock(account: AccountObject, request: RequestObject, status: Status) returns (r: Result<(), Error>)
    modifies account, request
    ensures request.View() == old(request.View()).(status := status)
    ensures match Released(old(account.View()), old(request.View()), status)
            case Ok(pair) => r == Ok(()) && account.View() == pair.0 && request.View() == pair.1
            case Err(e) => r == Err(e) && account.View() == old(account.View()).(pendingRequest := DEFAULT_PUBKEY)
  {
    request.status := status;
    r := account.ReleaseAccountLock();
  }

  method CheckPendingLock(account: AccountObject, accountKey: Pubkey, request: RequestObject, requestKey: Pubkey)
    returns (r: Result<(), Error>)
    ensures r == RequirePendingLock(account.View(), accountKey, request.View(), requestKey)
  {
    if request.status != Pending { return Err(InvalidStatus); }
    if account.pendingRequest == DEFAULT_PUBKEY { return Err(NoPendingRequest); }
    if account.pendingRequest != requestKey { return Err(RequestMismatch); }
    if request.confidentialAccount != accountKey { return Err(AccountMismatch); }
    return Ok(());
  }

  method CancelHandler(account: AccountObject, accountKey: Pubkey, request: RequestObject, requestKey: Pubkey,
                       owner: Pubkey, slot: u64) returns (r: Result<(), Error>)
    modifies account, request
    ensures var spec := CancelledPair(old(account.View()), accountKey, old(request.View()), requestKey, owner, slot);
            match spec
            case Ok(pair) => r == Ok(()) && account.View() == pair.0 && request.View() == pair.1
            case Err(e) =>
              r == Err(e) && if e == Overflow then
                account.View() == old(account.View()).(pendingRequest := DEFAULT_PUBKEY)
                && request.View() == old(request.View()).(status := Cancelled)
              else
                account.View() == old(account.View()) && request.View() == old(request.View())
  {
    r := CheckPendingLock(account, accountKey, request, requestKey);
    if r.Err? { return; }
    if account.owner != owner { return Err(Unauthorized); }
    if slot >= request.expirySlot { return Err(Error.Expired); }
    r := ReleaseLock(account, request, Cancelled);
  }

  method ExpireHandler(account: AccountObject, accountKey: Pubkey, request: RequestObject, requestKey: Pubkey, slot: u64)
    returns (r: Result<(), Error>)
    modifies account, request
    ensures var spec := ExpiredPair(old(account.View()), accountKey, old(request.View()), requestKey, slot);
            match spec
            case Ok(pair) => r == Ok(()) && account.View() == pair.0 && request.View() == pair.1
            case Err(e) =>
              r == Err(e) && if e == Overflow then
                account.View() == old(account.View()).(pendingRequest := DEFAULT_PUBKEY)
                && request.View() == old(request.View()).(status := Status.Expired)
              else
                account.View() == old(account.View()) && request.View() == old(request.View())
  {
    r := CheckPendingLock(account, accountKey, request, requestKey);
    if r.Err? { return; }
    if slot < request.expirySlot { return Err(NotExpired); }
    r := ReleaseLock(account, request, Status.Expired);
  }

  /** Finalize's requirements up to the clock, checked one after the other. */
  method CheckFinalizeRecords(config: ConfigObject, configKey: Pubkey, account: AccountObject, accountKey: Pubkey,
                              request: RequestObject, requestKey: Pubkey, args: FinalizeArgs, slot: u64)
    returns (r: Result<(), Error>)
    ensures r == FinalizeRecordGuards(config.View(), configKey, account.View(), accountKey, request.View(), requestKey, args, slot)
  {
    if config.paused { return Err(Paused); }
    r := CheckPendingLock(account, accountKey, request, requestKey);
    if r.Err? { return; }
    if request.config != configKey { return Err(ConfigMismatch); }
    if request.mint != config.mint { return Err(MintMismatch); }
    if account.config != configKey { return Err(ConfigMismatch); }
    if account.mint != config.mint { return Err(MintMismatch); }
    if request.operatorEpoch != config.operatorEpoch { return Err(InvalidOperatorEpoch); }
    if request.keyVersion != config.keyVersion { return Err(InvalidKeyVersion); }
    if account.stateVersion != request.stateVersion { return Err(InvalidStateVersion); }
    if account.requestNonce != request.requestNonce { return Err(InvalidNonce); }
    if request.operation != config.operation { return Err(InvalidOperation); }
    if args.circuitId != config.circuitId { return Err(InvalidOperation); }
    if args.resultType != RESULT_TYPE_FHE_BOOL { return Err(InvalidResult); }
    if IsZeroHash(args.resultHash) { return Err(InvalidCiphertextRef); }
    if slot >= request.expirySlot { return Err(Error.Expired); }
    return Ok(());
  }

  /** All of finalize's requirements: the records, the recomputed digest, the signature over the built message. */
  method CheckFinalize(env: Crypto, ctx: Context, config: ConfigObject, configKey: Pubkey, account: AccountObject,
                       accountKey: Pubkey, request: RequestObject, requestKey: Pubkey, args: FinalizeArgs)
    returns (r: Result<ResultBinding, Error>)
    ensures r == FinalizeGuards(env, ctx, config.View(), configKey, account.View(), accountKey, request.View(), requestKey, args)
  {
    var fits := CheckFinalizeRecords(config, configKey, account, accountKey, request, requestKey, args, ctx.slot);
    if fits.Err? { return Err(fits.error); }
    var binding := ResultBindingOf(config.View(), request.View(), requestKey, args);
    if RequestDigest(env, binding.request) != request.requestDigest { return Err(RequestMismatch); }
    var message := BuildResult(binding);
    var signed := VerifyOperatorMessage(ctx.ixs, ctx.current, config.operator, message.data);
    if signed.Err? { return Err(signed.error); }
    return Ok(binding);
  }

  /** No requirement of finalize fails with Overflow: only releasing the lock can. */
  lemma GuardsNeverOverflow(env: Crypto, ctx: Context, config: Config, configKey: Pubkey, account: ConfidentialAccount,
                            accountKey: Pubkey, request: Request, requestKey: Pubkey, args: FinalizeArgs)
    ensures FinalizeGuards(env, ctx, config, configKey, account, accountKey, request, requestKey, args) != Err(Overflow)
  {
  }

  /** Finalize's assignments: the result is written first, then the lock is released. */
  method WriteResult(env: Crypto, config: ConfigObject, account: AccountObject, request: RequestObject, requestKey: Pubkey,
                     args: FinalizeArgs, binding: ResultBinding) returns (r: Result<(), Error>)
    requires binding == ResultBindingOf(config.View(), request.View(), requestKey, args)
    modifies account, request
    ensures request.View() == FinalizedRequest(env, config.View(), old(request.View()), requestKey, args)
    ensures match ReleasedAccount(old(account.View()))
            case Ok(a) => r == Ok(()) && account.View() == a
            case Err(e) => r == Err(e) && account.View() == old(account.View()).(pendingRequest := DEFAULT_PUBKEY)
  {
    var message := BuildResult(binding);
    request.status := Finalized;
    request.resultHash := args.resultHash;
    request.resultDigest := env.sha256(message.data);
    r := account.ReleaseAccountLock();
  }

  method FinalizeHandler(env: Crypto, ctx: Context, config: ConfigObject, configKey: Pubkey, account: AccountObject,
                         accountKey: Pubkey, request: RequestObject, requestKey: Pubkey, args: FinalizeArgs)
    returns (r: Result<(), Error>)
    modifies account, request
    ensures var spec := FinalizedPair(env, ctx, config.View(), configKey, old(account.View()), accountKey,
                                      old(request.View()), requestKey, args);
            match spec
            case Ok(pair) => r == Ok(()) && account.View() == pair.0 && request.View() == pair.1
            case Err(e) =>
              r == Err(e) && if e == Overflow then
                account.View() == old(account.View()).(pendingRequest := DEFAULT_PUBKEY)
                && request.View() == FinalizedRequest(env, config.View(), old(request.View()), requestKey, args)
              else
                account.View() == old(account.View()) && request.View() == old(request.View())
  {
    GuardsNeverOverflow(env, ctx, config.View(), configKey, account.View(), accountKey, request.View(), requestKey, args);
    var binding := CheckFinalize(env, ctx, config, configKey, account, accountKey, request, requestKey, args);
    if binding.Err? { return Err(binding.error); }
    r := WriteResult(env, config, account, request, requestKey, args, binding.value);
  }

  // ---- The bank ----

  /** The runtime around the program: the stored records, the clock, and the history kept for the proofs. */
  class Bank {
    var ledger: Ledger
    var slot: u64
    ghost var history: History

    ghost function View(): World
      reads this
    {
      World(ledger, slot, history)
    }

    constructor (slot: u64)
      ensures View() == Genesis(slot)
    {
      ledger, this.slot, history := map[], slot, [];
    }

    method DispatchInitialize(env: Crypto, call: Call) returns (r: Result<Ledger, Error>)
      requires call.InitializeConfig?
      ensures r == ExecInitialize(env, ledger, call)
    {
      if call.config != ConfigPda(env, call.mint) { return Err(ConstraintSeeds); }
      if call.config in ledger { return Err(AddressInUse); }
      var config := new ConfigObject.Zeroed();
      var done := InitializeHandler(config, call.authority, call.mint, call.init);
      if done.Err? { return Err(done.error); }
      return Ok(ledger[call.config := ConfigRecord(config.View())]);
    }

    method DispatchCreate(env: Crypto, call: Call) returns (r: Result<Ledger, Error>)
      requires call.CreateAccount?
      ensures r == ExecCreate(env, ledger, call)
    {
      var loaded := LoadConfig(ledger, call.config);
      if loaded.Err? { return Err(loaded.error); }
      if call.account != AccountPda(env, loaded.value.mint, call.owner) { return Err(ConstraintSeeds); }
      if call.account in ledger { return Err(AddressInUse); }
      if call.config != ConfigPda(env, loaded.value.mint) { return Err(ConstraintSeeds); }
      var config := new ConfigObject(loaded.value);
      var account := new AccountObject.Zeroed();
      var done := CreateHandler(config, call.config, account, call.owner, call.balanceHash, call.limitHash);
      if done.Err? { return Err(done.error); }
      return Ok(ledger[call.account := AccountRecord(account.View())]);
    }

    /** Runs one admin call against a loaded config object. */
    method DispatchAdmin(env: Crypto, ctx: Context, call: Call) returns (r: Result<Ledger, Error>)
      requires call.SetPaused? || call.RotateOperator? || call.SetKeyVersion?
      ensures r == Exec(env, ledger, ctx, call)
    {
      var loaded := LoadConfig(ledger, call.config);
      if loaded.Err? { return Err(loaded.error); }
      if loaded.value.authority != call.authority { return Err(Unauthorized); }
      var config := new ConfigObject(loaded.value);
      match call {
        case SetPaused(_, _, paused) => SetPausedHandler(config, paused);
        case RotateOperator(_, _, newOperator) =>
          var rotated := RotateHandler(config, newOperator);
          if rotated.Err? { return Err(rotated.error); }
        case SetKeyVersion(_, _, keyVersion) => SetKeyVersionHandler(config, keyVersion);
      }
      return Ok(ledger[call.config := ConfigRecord(config.View())]);
    }

    method LoadSubmit(env: Crypto, call: Call) returns (r: Result<(Config, ConfidentialAccount), Error>)
      requires call.Submit?
      ensures r == SubmitConstraints(env, ledger, call)
    {
      var config := LoadConfig(ledger, call.config);
      if config.Err? { return Err(config.error); }
      var account := LoadAccount(ledger, call.account);
      if account.Err? { return Err(account.error); }
      if call.request != RequestPda(env, call.account, call.submit.expectedNonce) { return Err(ConstraintSeeds); }
      if call.request in ledger { return Err(AddressInUse); }
      if call.config != ConfigPda(env, config.value.mint) { return Err(ConstraintSeeds); }
      if call.account != AccountPda(env, config.value.mint, call.owner) { return Err(ConstraintSeeds); }
      if account.value.owner != call.owner { return Err(Unauthorized); }
      if account.value.config != call.config { return Err(ConfigMismatch); }
      return Ok((config.value, account.value));
    }

    method DispatchSubmit(env: Crypto, ctx: Context, call: Call) returns (r: Result<Ledger, Error>)
      requires call.Submit?
      ensures r == ExecSubmit(env, ledger, ctx, call)
    {
      var loaded := LoadSubmit(env, call);
      if loaded.Err? { return Err(loaded.error); }
      var config := new ConfigObject(loaded.value.0);
      var account := new AccountObject(loaded.value.1);
      var request := new RequestObject.Zeroed();
      var done := SubmitHandler(env, config, call.config, account, call.account, call.owner, request, call.request, call.submit, ctx.slot);
      if done.Err? { return Err(done.error); }
      return Ok(Store(ledger, call.account, call.request, (account.View(), request.View())));
    }

    method LoadCancel(env: Crypto, call: Call) returns (r: Result<(ConfidentialAccount, Request), Error>)
      requires call.Cancel?
      ensures r == CancelConstraints(env, ledger, call)
    {
      var account := LoadAccount(ledger, call.account);
      if account.Err? { return Err(account.error); }
      var request := LoadRequest(ledger, call.request);
      if request.Err? { return Err(request.error); }
      if call.account != AccountPda(env, account.value.mint, call.owner) { return Err(ConstraintSeeds); }
      if account.value.owner != call.owner { return Err(Unauthorized); }
      if call.request != RequestPda(env, call.account, request.value.requestNonce) { return Err(ConstraintSeeds); }
      if request.value.confidentialAccount != call.account { return Err(AccountMismatch); }
      return Ok((account.value, request.value));
    }

    method DispatchCancel(env: Crypto, ctx: Context, call: Call) returns (r: Result<Ledger, Error>)
      requires call.Cancel?
      ensures r == ExecCancel(env, ledger, ctx, call)
    {
      var loaded := LoadCancel(env, call);
      if loaded.Err? { return Err(loaded.error); }
      var account := new AccountObject(loaded.value.0);
      var request := new RequestObject(loaded.value.1);
      var done := CancelHandler(account, call.account, request, call.request, call.owner, ctx.slot);
      if done.Err? { return Err(done.error); }
      return Ok(Store(ledger, call.account, call.request, (account.View(), request.View())));
    }

    method LoadExpire(env: Crypto, call: Call) returns (r: Result<(ConfidentialAccount, Request), Error>)
      requires call.Expire?
      ensures r == ExpireConstraints(env, ledger, call)
    {
      var account := LoadAccount(ledger, call.account);
      if account.Err? { return Err(account.error); }
      var request := LoadRequest(ledger, call.request);
      if request.Err? { return Err(request.error); }
      if call.account != AccountPda(env, account.value.mint, account.value.owner) { return Err(ConstraintSeeds); }
      if call.request != RequestPda(env, call.account, request.value.requestNonce) { return Err(ConstraintSeeds); }
      if request.value.confidentialAccount != call.account { return Err(AccountMismatch); }
      return Ok((account.value, request.value));
    }

    method DispatchExpire(env: Crypto, ctx: Context, call: Call) returns (r: Result<Ledger, Error>)
      requires call.Expire?
      ensures r == ExecExpire(env, ledger, ctx, call)
    {
      var loaded := LoadExpire(env, call);
      if loaded.Err? { return Err(loaded.error); }
      var account := new AccountObject(loaded.value.0);
      var request := new RequestObject(loaded.value.1);
      var done := ExpireHandler(account, call.account, request, call.request, ctx.slot);
      if done.Err? { return Err(done.error); }
      return Ok(Store(ledger, call.account, call.request, (account.View(), request.View())));
    }

    method LoadFinalize(env: Crypto, call: Call) returns (r: Result<(Config, ConfidentialAccount, Request), Error>)
      requires call.Finalize?
      ensures r == FinalizeConstraints(env, ledger, call)
    {
      var config := LoadConfig(ledger, call.config);
      if config.Err? { return Err(config.error); }
      var account := LoadAccount(ledger, call.account);
      if account.Err? { return Err(account.error); }
      var request := LoadRequest(ledger, call.request);
      if request.Err? { return Err(request.error); }
      if call.config != ConfigPda(env, config.value.mint) { return Err(ConstraintSeeds); }
      if call.account != AccountPda(env, config.value.mint, account.value.owner) { return Err(ConstraintSeeds); }
      if account.value.config != call.config { return Err(ConfigMismatch); }
      if call.request != RequestPda(env, call.account, request.value.requestNonce) { return Err(ConstraintSeeds); }
      if request.value.config != call.config { return Err(ConfigMismatch); }
      if request.value.confidentialAccount != call.account { return Err(AccountMismatch); }
      if call.instructions != INSTRUCTIONS_ID { return Err(ConstraintAddress); }
      return Ok((config.value, account.value, request.value));
    }

    method DispatchFinalize(env: Crypto, ctx: Context, call: Call) returns (r: Result<Ledger, Error>)
      requires call.Finalize?
      ensures r == ExecFinalize(env, ledger, ctx, call)
    {
      var loaded := LoadFinalize(env, call);
      if loaded.Err? { return Err(loaded.error); }
      var config := new ConfigObject(loaded.value.0);
      var account := new AccountObject(loaded.value.1);
      var request := new RequestObject(loaded.value.2);
      var done := FinalizeHandler(env, ctx, config, call.config, account, call.account, request, call.request, call.finalize);
      if done.Err? { return Err(done.error); }
      return Ok(Store(ledger, call.account, call.request, (account.View(), request.View())));
    }

    /** One call: on success the written-back ledger is exactly the specified one, on failure nothing changes. */
    method Invoke(env: Crypto, ixs: Instructions, inv: Invocation) returns (r: Result<(), Error>)
      modifies this
      ensures match Runs.Invoke(env, old(View()), ixs, inv)
              case Ok(w) => r == Ok(()) && View() == w
              case Err(e) => r == Err(e) && View() == old(View())
    {
      var ctx := Context(slot, ixs, inv.top);
      var call := inv.call;
      var next: Result<Ledger, Error>;
      match call {
        case InitializeConfig(_, _, _, _) => next := DispatchInitialize(env, call);
        case SetPaused(_, _, _) => next := DispatchAdmin(env, ctx, call);
        case RotateOperator(_, _, _) => next := DispatchAdmin(env, ctx, call);
        case SetKeyVersion(_, _, _) => next := DispatchAdmin(env, ctx, call);
        case CreateAccount(_, _, _, _, _) => next := DispatchCreate(env, call);
        case Submit(_, _, _, _, _) => next := DispatchSubmit(env, ctx, call);
        case Cancel(_, _, _) => next := DispatchCancel(env, ctx, call);
        case Expire(_, _) => next := DispatchExpire(env, ctx, call);
        case Finalize(_, _, _, _, _) => next := DispatchFinalize(env, ctx, call);
      }
      assert next == Exec(env, ledger, ctx, call);
      if next.Err? {
        return Err(next.error);
      }
      history := history + EventsOf(env, ledger, ctx, call);
      ledger := next.value;
      return Ok(());
    }

    /** Continues transaction `tx`, begun in world `w`, from its call number `n`. */
    method InvokeFrom(env: Crypto, tx: Transaction, n: nat, ghost w: World) returns (done: bool)
      requires n <= |tx.invocations| && InvokeUpTo(env, w, tx, n) == Ok(View())
      modifies this
      ensures done <==> InvokeUpTo(env, w, tx, |tx.invocations|).Ok?
      ensures done ==> InvokeUpTo(env, w, tx, |tx.invocations|) == Ok(View())
      decreases |tx.invocations| - n
    {
      if n == |tx.invocations| {
        return true;
      }
      var r := Invoke(env, tx.ixs, tx.invocations[n]);
      UpToNext(env, w, tx, n);
      if r.Err? {
        if InvokeUpTo(env, w, tx, |tx.invocations|).Ok? {
          PrefixSucceeds(env, w, tx, n + 1, |tx.invocations|);
        }
        return false;
      }
      done := InvokeFrom(env, tx, n + 1, w);
    }

    /** A whole transaction: all of its calls, or everything is put back. */
    method Process(env: Crypto, tx: Transaction) returns (committed: bool)
      modifies this
      ensures committed == Commits(env, old(View()), tx)
      ensures View() == Transact(env, old(View()), tx)
      ensures !committed ==> View() == old(View())
    {
      if !PrecompilesAccept(env, tx.ixs) {
        return false;
      }
      var before := ledger;
      var now := slot;
      ghost var past := history;
      committed := InvokeFrom(env, tx, 0, View());
      if !committed {
        ledger, slot, history := before, now, past;
      }
    }
  }
}
