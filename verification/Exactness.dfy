/**
 * For each instruction, on every ledger that satisfies the invariant: exactly when it succeeds, the
 * fields it leaves, and the error when a single requirement fails and all others hold.
 */
module Exactness {
  import opened Types
  import opened Protocol
  import opened Errors
  import opened Ed25519
  import opened State
  import opened Coordinator
  import opened Invariant
  import opened Lifecycle

  // ---- Initialize ----

  lemma InitializeExact(env: Crypto, l: Ledger, call: Call)
    requires call.InitializeConfig?
    ensures var r := ExecInitialize(env, l, call);
            var derived := call.config == ConfigPda(env, call.mint);
            var free := call.config !in l;
            var lives := call.init.maxRequestLifetimeSlots > 0;
            var params := !IsZeroHash(call.init.paramsHash);
            var operated := call.init.operator != DEFAULT_PUBKEY;
            && (r.Ok? <==> derived && free && lives && params && operated)
            && (!derived && free && lives && params && operated ==> r == Err(ConstraintSeeds))
            && (derived && !free && lives && params && operated ==> r == Err(AddressInUse))
            && (derived && free && !lives && params && operated ==> r == Err(InvalidOperation))
            && (derived && free && lives && !params && operated ==> r == Err(InvalidCiphertextRef))
            && (derived && free && lives && params && !operated ==> r == Err(InvalidOperator))
  {
  }

  /** Field by field, the config an initialization leaves. */
  lemma InitializeEffect(env: Crypto, l: Ledger, call: Call)
    requires call.InitializeConfig? && ExecInitialize(env, l, call).Ok?
    ensures var l' := ExecInitialize(env, l, call).value;
            && IsConfig(l', call.config)
            && var c := ConfigAt(l', call.config);
            && c.authority == call.authority && c.mint == call.mint && c.domainId == call.init.domainId
            && c.operator == call.init.operator && c.operatorEpoch == 1
            && c.keyVersion == call.init.keyVersion && c.paramsHash == call.init.paramsHash
            && c.operation == 1 && c.circuitId == 1 && c.protocolVersion == 1
            && c.maxRequestLifetimeSlots == call.init.maxRequestLifetimeSlots && !c.paused
  {
  }

  // ---- The three admin instructions ----

  /** Nobody but the config's authority pauses, rotates or sets the key version. */
  lemma AdminExact(env: Crypto, l: Ledger, ctx: Context, call: Call)
    requires call.SetPaused? || call.RotateOperator? || call.SetKeyVersion?
    ensures var r := Exec(env, l, ctx, call);
            && (r.Ok? <==>
                  && IsConfig(l, call.config) && ConfigAt(l, call.config).authority == call.authority
                  && (call.RotateOperator? ==> call.newOperator != DEFAULT_PUBKEY && ConfigAt(l, call.config).operatorEpoch < U64_MAX))
            && (!IsConfig(l, call.config) ==> r == Err(BadAccount))
            && (IsConfig(l, call.config) && ConfigAt(l, call.config).authority != call.authority ==> r == Err(Unauthorized))
  {
  }

  lemma RotateRefusals(env: Crypto, l: Ledger, ctx: Context, call: Call)
    requires call.RotateOperator? && IsConfig(l, call.config) && ConfigAt(l, call.config).authority == call.authority
    ensures call.newOperator == DEFAULT_PUBKEY ==> Exec(env, l, ctx, call) == Err(InvalidOperator)
    ensures call.newOperator != DEFAULT_PUBKEY && ConfigAt(l, call.config).operatorEpoch == U64_MAX ==> Exec(env, l, ctx, call) == Err(Overflow)
  {
  }

  /** An admin instruction changes what it names and nothing else of the config. */
  lemma AdminEffect(env: Crypto, l: Ledger, ctx: Context, call: Call)
    requires call.SetPaused? || call.RotateOperator? || call.SetKeyVersion?
    requires Exec(env, l, ctx, call).Ok?
    ensures var l' := Exec(env, l, ctx, call).value;
            && IsConfig(l, call.config) && IsConfig(l', call.config)
            && var c, c' := ConfigAt(l, call.config), ConfigAt(l', call.config);
            && (call.SetPaused? ==> c' == c.(paused := call.paused))
            && (call.SetKeyVersion? ==> c' == c.(keyVersion := call.keyVersion))
            && (call.RotateOperator? ==> c.operatorEpoch < U64_MAX
                                         && c' == c.(operator := call.newOperator, operatorEpoch := c.operatorEpoch + 1))
  {
  }

  // ---- Create ----

  lemma CreateExact(env: Crypto, l: Ledger, call: Call)
    requires LedgerInv(env, l) && call.CreateAccount?
    ensures var r := ExecCreate(env, l, call);
            && (!IsConfig(l, call.config) ==> r == Err(BadAccount))
            && (IsConfig(l, call.config) ==>
                  var c := ConfigAt(l, call.config);
                  var derived := call.account == AccountPda(env, c.mint, call.owner);
                  var free := call.account !in l;
                  var balance, limit := !IsZeroHash(call.balanceHash), !IsZeroHash(call.limitHash);
                  && (r.Ok? <==> derived && free && balance && limit && !c.paused)
                  && (!derived && free && balance && limit && !c.paused ==> r == Err(ConstraintSeeds))
                  && (derived && !free && balance && limit && !c.paused ==> r == Err(AddressInUse))
                  && (derived && free && !(balance && limit) && !c.paused ==> r == Err(InvalidCiphertextRef))
                  && (derived && free && balance && limit && c.paused ==> r == Err(Paused)))
  {
    if IsConfig(l, call.config) {
      assert RecordOk(env, l, call.config);
    }
  }

  /** Field by field, the account a creation leaves. */
  lemma CreateEffect(env: Crypto, l: Ledger, call: Call)
    requires call.CreateAccount? && ExecCreate(env, l, call).Ok?
    ensures var l' := ExecCreate(env, l, call).value;
            && IsConfig(l, call.config) && IsAccount(l', call.account)
            && var c, a := ConfigAt(l, call.config), AccountAt(l', call.account);
            && a.config == call.config && a.mint == c.mint && a.owner == call.owner
            && a.balanceRef == call.balanceHash && a.limitRef == call.limitHash
            && a.stateVersion == 0 && a.requestNonce == 0 && a.pendingRequest == DEFAULT_PUBKEY
            && a.keyVersion == c.keyVersion
  {
  }

  // ---- Submit ----

  /** The records a submit needs: an account of this owner under this config, and a free derived address. */
  predicate SubmitReady(env: Crypto, l: Ledger, call: Call)
    requires call.Submit?
  {
    && IsConfig(l, call.config) && IsAccount(l, call.account)
    && AccountAt(l, call.account).config == call.config && AccountAt(l, call.account).owner == call.owner
    && call.request == RequestPda(env, call.account, call.submit.expectedNonce) && call.request !in l
  }

  lemma SubmitReadyExact(env: Crypto, l: Ledger, call: Call)
    requires LedgerInv(env, l) && call.Submit?
    ensures SubmitConstraints(env, l, call).Ok? <==> SubmitReady(env, l, call)
    ensures SubmitReady(env, l, call) ==>
              SubmitConstraints(env, l, call) == Ok((ConfigAt(l, call.config), AccountAt(l, call.account)))
  {
    if IsConfig(l, call.config) && IsAccount(l, call.account) {
      assert RecordOk(env, l, call.config) && RecordOk(env, l, call.account);
    }
  }

  lemma SubmitExact(env: Crypto, l: Ledger, ctx: Context, call: Call)
    requires LedgerInv(env, l) && call.Submit?
    ensures ExecSubmit(env, l, ctx, call).Ok? <==>
              && SubmitReady(env, l, call)
              && var c, a := ConfigAt(l, call.config), AccountAt(l, call.account);
              && !c.paused && !a.HasPending() && a.keyVersion == c.keyVersion
              && call.submit.expectedStateVersion == a.stateVersion
              && a.requestNonce < U64_MAX && call.submit.expectedNonce == a.requestNonce + 1
              && !IsZeroHash(call.submit.amountHash)
              && ctx.slot + c.maxRequestLifetimeSlots <= U64_MAX
  {
    SubmitReadyExact(env, l, call);
    if SubmitReady(env, l, call) {
      SubmitSucceedsIff(env, l, ctx, call);
    }
  }

  lemma SubmitRefusals(env: Crypto, l: Ledger, ctx: Context, call: Call)
    requires LedgerInv(env, l) && call.Submit? && SubmitReady(env, l, call)
    ensures var r := ExecSubmit(env, l, ctx, call);
            var c, a := ConfigAt(l, call.config), AccountAt(l, call.account);
            var idle, key, version := !a.HasPending(), a.keyVersion == c.keyVersion, call.submit.expectedStateVersion == a.stateVersion;
            var room := a.requestNonce < U64_MAX;
            var next := call.submit.expectedNonce == a.requestNonce + 1;
            var amount, fits := !IsZeroHash(call.submit.amountHash), ctx.slot + c.maxRequestLifetimeSlots <= U64_MAX;
            && (c.paused && idle && key && version && room && next && amount && fits ==> r == Err(Paused))
            && (!c.paused && !idle && key && version && room && next && amount && fits ==> r == Err(ActiveRequest))
            && (!c.paused && idle && !key && version && room && next && amount && fits ==> r == Err(InvalidKeyVersion))
            && (!c.paused && idle && key && !version && room && next && amount && fits ==> r == Err(InvalidStateVersion))
            && (!c.paused && idle && key && version && !room && amount && fits ==> r == Err(Overflow))
            && (!c.paused && idle && key && version && room && !next && amount && fits ==> r == Err(InvalidNonce))
            && (!c.paused && idle && key && version && room && next && !amount && fits ==> r == Err(InvalidCiphertextRef))
            && (!c.paused && idle && key && version && room && next && amount && !fits ==> r == Err(Overflow))
  {
    SubmitReadyExact(env, l, call);
    assert RecordOk(env, l, call.account) && RecordOk(env, l, call.config);
  }

  lemma SubmitConstraintRefusals(env: Crypto, l: Ledger, ctx: Context, call: Call)
    requires call.Submit?
    ensures !IsConfig(l, call.config) || !IsAccount(l, call.account) ==> ExecSubmit(env, l, ctx, call) == Err(BadAccount)
    ensures IsConfig(l, call.config) && IsAccount(l, call.account) ==>
              var derived := call.request == RequestPda(env, call.account, call.submit.expectedNonce);
              && (!derived ==> ExecSubmit(env, l, ctx, call) == Err(ConstraintSeeds))
              && (derived && call.request in l ==> ExecSubmit(env, l, ctx, call) == Err(AddressInUse))
  {
  }

  // ---- Cancel and expire ----

  lemma CancelExact(env: Crypto, l: Ledger, ctx: Context, call: Call)
    requires LedgerInv(env, l) && call.Cancel?
    ensures ExecCancel(env, l, ctx, call).Ok? <==>
              && IsAccount(l, call.account) && IsRequest(l, call.request)
              && RequestAt(l, call.request).confidentialAccount == call.account
              && AccountAt(l, call.account).owner == call.owner
              && RequestAt(l, call.request).status == Pending
              && ctx.slot < RequestAt(l, call.request).expirySlot
  {
    if IsAccount(l, call.account) && IsRequest(l, call.request) {
      assert RecordOk(env, l, call.account) && RecordOk(env, l, call.request);
      if RequestAt(l, call.request).confidentialAccount == call.account && RequestAt(l, call.request).status == Pending {
        PendingIsLast(env, l, call.account, call.request);
      }
    }
  }

  lemma ExpireExact(env: Crypto, l: Ledger, ctx: Context, call: Call)
    requires LedgerInv(env, l) && call.Expire?
    ensures ExecExpire(env, l, ctx, call).Ok? <==>
              && IsAccount(l, call.account) && IsRequest(l, call.request)
              && RequestAt(l, call.request).confidentialAccount == call.account
              && RequestAt(l, call.request).status == Pending
              && ctx.slot >= RequestAt(l, call.request).expirySlot
  {
    if IsAccount(l, call.account) && IsRequest(l, call.request) {
      assert RecordOk(env, l, call.account) && RecordOk(env, l, call.request);
      if RequestAt(l, call.request).confidentialAccount == call.account && RequestAt(l, call.request).status == Pending {
        PendingIsLast(env, l, call.account, call.request);
      }
    }
  }

  /** A request of the account, sent with the account's owner: why a release is refused. */
  lemma ReleaseRefusals(env: Crypto, l: Ledger, ctx: Context, ak: Pubkey, q: Pubkey)
    requires LedgerInv(env, l) && IsAccount(l, ak) && IsRequest(l, q) && RequestAt(l, q).confidentialAccount == ak
    ensures var r := RequestAt(l, q);
            var cancel := ExecCancel(env, l, ctx, Cancel(AccountAt(l, ak).owner, ak, q));
            var expire := ExecExpire(env, l, ctx, Expire(ak, q));
            && (r.status != Pending ==> cancel == Err(InvalidStatus) && expire == Err(InvalidStatus))
            && (r.status == Pending && ctx.slot >= r.expirySlot ==> cancel == Err(Error.Expired))
            && (r.status == Pending && ctx.slot < r.expirySlot ==> expire == Err(NotExpired))
  {
    assert RecordOk(env, l, ak) && RecordOk(env, l, q);
    if RequestAt(l, q).status == Pending {
      PendingIsLast(env, l, ak, q);
    }
  }

  /** Anybody but the owner is refused, by the derived address or by the owner check. */
  lemma StrangerCannotCancel(env: Crypto, l: Ledger, ctx: Context, call: Call)
    requires call.Cancel? && IsAccount(l, call.account) && IsRequest(l, call.request)
    requires AccountAt(l, call.account).owner != call.owner
    ensures ExecCancel(env, l, ctx, call) == Err(ConstraintSeeds) || ExecCancel(env, l, ctx, call) == Err(Unauthorized)
  {
  }

  // ---- Finalize ----

  /** The records a finalize needs: a request with its own account and config, and the instructions sysvar. */
  predicate FinalizeReady(l: Ledger, call: Call)
    requires call.Finalize?
  {
    && IsConfig(l, call.config) && IsAccount(l, call.account) && IsRequest(l, call.request)
    && RequestAt(l, call.request).config == call.config
    && RequestAt(l, call.request).confidentialAccount == call.account
    && call.instructions == INSTRUCTIONS_ID
  }

  lemma FinalizeReadyExact(env: Crypto, l: Ledger, call: Call)
    requires LedgerInv(env, l) && call.Finalize?
    ensures FinalizeConstraints(env, l, call).Ok? <==> FinalizeReady(l, call)
    ensures FinalizeReady(l, call) ==>
              FinalizeConstraints(env, l, call) == Ok((ConfigAt(l, call.config), AccountAt(l, call.account), RequestAt(l, call.request)))
  {
    if IsConfig(l, call.config) && IsAccount(l, call.account) && IsRequest(l, call.request) {
      assert RecordOk(env, l, call.config) && RecordOk(env, l, call.account) && RecordOk(env, l, call.request);
    }
  }

  lemma FinalizeExact(env: Crypto, l: Ledger, ctx: Context, call: Call)
    requires LedgerInv(env, l) && call.Finalize?
    ensures ExecFinalize(env, l, ctx, call).Ok? <==>
              && FinalizeReady(l, call)
              && var c, r := ConfigAt(l, call.config), RequestAt(l, call.request);
              && !c.paused && r.status == Pending
              && r.operatorEpoch == c.operatorEpoch && r.keyVersion == c.keyVersion
              && call.finalize.circuitId == 1 && call.finalize.resultType == 1
              && !IsZeroHash(call.finalize.resultHash) && ctx.slot < r.expirySlot
              && BindsExactly(ctx.ixs, ctx.current, c.operator,
                              EncodeResult(ResultBindingOf(c, r, call.request, call.finalize)))
  {
    FinalizeReadyExact(env, l, call);
    if FinalizeReady(l, call) {
      FinalizeSucceedsIff(env, l, ctx, call);
      assert RecordOk(env, l, call.config);
    }
  }

  lemma FinalizeRefusals(env: Crypto, l: Ledger, ctx: Context, call: Call)
    requires LedgerInv(env, l) && call.Finalize? && FinalizeReady(l, call)
    ensures var f := ExecFinalize(env, l, ctx, call);
            var c, r := ConfigAt(l, call.config), RequestAt(l, call.request);
            var pending, epoch, key := r.status == Pending, r.operatorEpoch == c.operatorEpoch, r.keyVersion == c.keyVersion;
            var circuit, kind := call.finalize.circuitId == c.circuitId, call.finalize.resultType == 1;
            var hash, timely := !IsZeroHash(call.finalize.resultHash), ctx.slot < r.expirySlot;
            var signed := VerifyOperatorMessage(ctx.ixs, ctx.current, c.operator,
                                                EncodeResult(ResultBindingOf(c, r, call.request, call.finalize)));
            && (c.paused && pending && epoch && key && circuit && kind && hash && timely ==> f == Err(Paused))
            && (!c.paused && !pending && epoch && key && circuit && kind && hash && timely ==> f == Err(InvalidStatus))
            && (!c.paused && pending && !epoch && key && circuit && kind && hash && timely ==> f == Err(InvalidOperatorEpoch))
            && (!c.paused && pending && epoch && !key && circuit && kind && hash && timely ==> f == Err(InvalidKeyVersion))
            && (!c.paused && pending && epoch && key && !circuit && kind && hash && timely ==> f == Err(InvalidOperation))
            && (!c.paused && pending && epoch && key && circuit && !kind && hash && timely ==> f == Err(InvalidResult))
            && (!c.paused && pending && epoch && key && circuit && kind && !hash && timely ==> f == Err(InvalidCiphertextRef))
            && (!c.paused && pending && epoch && key && circuit && kind && hash && !timely ==> f == Err(Error.Expired))
            && (!c.paused && pending && epoch && key && circuit && kind && hash && timely && signed.Err? ==> f == Err(signed.error))
  {
    FinalizeReadyExact(env, l, call);
    FinalizeReduced(env, l, ctx, call);
  }

  /** Finalize refuses anything but the instructions sysvar. */
  lemma FinalizeConstraintRefusals(env: Crypto, l: Ledger, ctx: Context, call: Call)
    requires LedgerInv(env, l) && call.Finalize?
    ensures !IsConfig(l, call.config) || !IsAccount(l, call.account) || !IsRequest(l, call.request) ==>
              ExecFinalize(env, l, ctx, call) == Err(BadAccount)
    ensures call.instructions != INSTRUCTIONS_ID && FinalizeReady(l, call.(instructions := INSTRUCTIONS_ID)) ==>
              ExecFinalize(env, l, ctx, call) == Err(ConstraintAddress)
  {
    if FinalizeReady(l, call.(instructions := INSTRUCTIONS_ID)) {
      FinalizeReadyExact(env, l, call.(instructions := INSTRUCTIONS_ID));
    }
  }

  // ---- The checks on arbitrary ledgers and records, where none of them is implied by the others ----

  lemma SubmitConstraintsExact(env: Crypto, l: Ledger, call: Call)
    requires call.Submit?
    ensures SubmitConstraints(env, l, call).Ok? <==>
              && IsConfig(l, call.config) && IsAccount(l, call.account) && call.request !in l
              && var c, a := ConfigAt(l, call.config), AccountAt(l, call.account);
              && call.config == ConfigPda(env, c.mint) && call.account == AccountPda(env, c.mint, call.owner)
              && call.request == RequestPda(env, call.account, call.submit.expectedNonce)
              && a.owner == call.owner && a.config == call.config
  {
  }

  lemma ReleaseConstraintsExact(env: Crypto, l: Ledger, owner: Pubkey, ak: Pubkey, q: Pubkey)
    ensures CancelConstraints(env, l, Cancel(owner, ak, q)).Ok? <==>
              && IsAccount(l, ak) && IsRequest(l, q)
              && var a, r := AccountAt(l, ak), RequestAt(l, q);
              && a.owner == owner && ak == AccountPda(env, a.mint, owner)
              && q == RequestPda(env, ak, r.requestNonce) && r.confidentialAccount == ak
    ensures ExpireConstraints(env, l, Expire(ak, q)).Ok? <==>
              && IsAccount(l, ak) && IsRequest(l, q)
              && var a, r := AccountAt(l, ak), RequestAt(l, q);
              && ak == AccountPda(env, a.mint, a.owner)
              && q == RequestPda(env, ak, r.requestNonce) && r.confidentialAccount == ak
  {
  }

  lemma FinalizeConstraintsExact(env: Crypto, l: Ledger, call: Call)
    requires call.Finalize?
    ensures FinalizeConstraints(env, l, call).Ok? <==>
              && IsConfig(l, call.config) && IsAccount(l, call.account) && IsRequest(l, call.request)
              && call.instructions == INSTRUCTIONS_ID
              && var c, a, r := ConfigAt(l, call.config), AccountAt(l, call.account), RequestAt(l, call.request);
              && call.config == ConfigPda(env, c.mint) && call.account == AccountPda(env, c.mint, a.owner)
              && call.request == RequestPda(env, call.account, r.requestNonce)
              && a.config == call.config && r.config == call.config && r.confidentialAccount == call.account
  {
  }

  lemma SubmitGuardsExact(c: Config, ck: Pubkey, a: ConfidentialAccount, owner: Pubkey, args: SubmitArgs, slot: u64)
    ensures SubmitGuards(c, ck, a, owner, args, slot).Ok? <==>
              && !c.paused && a.pendingRequest == DEFAULT_PUBKEY
              && a.config == ck && a.mint == c.mint && a.owner == owner && a.keyVersion == c.keyVersion
              && a.stateVersion == args.expectedStateVersion
              && !IsZeroHash(a.balanceRef) && !IsZeroHash(a.limitRef) && !IsZeroHash(args.amountHash)
              && a.requestNonce < U64_MAX && args.expectedNonce == a.requestNonce + 1
              && slot + c.maxRequestLifetimeSlots <= U64_MAX
  {
  }

  lemma PendingLockExact(a: ConfidentialAccount, ak: Pubkey, r: Request, q: Pubkey)
    ensures RequirePendingLock(a, ak, r, q).Ok? <==>
              r.status == Pending && a.pendingRequest == q && q != DEFAULT_PUBKEY && r.confidentialAccount == ak
  {
  }

  lemma FinalizeRecordGuardsExact(c: Config, ck: Pubkey, a: ConfidentialAccount, ak: Pubkey, r: Request, q: Pubkey,
                                  args: FinalizeArgs, slot: u64)
    ensures FinalizeRecordGuards(c, ck, a, ak, r, q, args, slot).Ok? <==>
              && !c.paused && RequirePendingLock(a, ak, r, q).Ok?
              && r.config == ck && a.config == ck && r.mint == c.mint && a.mint == c.mint
              && r.operatorEpoch == c.operatorEpoch && r.keyVersion == c.keyVersion
              && a.stateVersion == r.stateVersion && a.requestNonce == r.requestNonce
              && r.operation == c.operation && args.circuitId == c.circuitId && args.resultType == 1
              && !IsZeroHash(args.resultHash) && slot < r.expirySlot
  {
  }

  /** Finalize asks three things: the records, the recomputed digest, and a binding signature over this very result. */
  lemma FinalizeGuardsExact(env: Crypto, ctx: Context, c: Config, ck: Pubkey, a: ConfidentialAccount, ak: Pubkey,
                            r: Request, q: Pubkey, args: FinalizeArgs)
    ensures FinalizeGuards(env, ctx, c, ck, a, ak, r, q, args).Ok? <==>
              && FinalizeRecordGuards(c, ck, a, ak, r, q, args, ctx.slot).Ok?
              && r.requestDigest == RequestDigest(env, RequestBindingOf(c, r, q))
              && BindsExactly(ctx.ixs, ctx.current, c.operator, EncodeResult(ResultBindingOf(c, r, q, args)))
  {
    IntrospectionExact(ctx.ixs, ctx.current, c.operator, EncodeResult(ResultBindingOf(c, r, q, args)));
  }
}
