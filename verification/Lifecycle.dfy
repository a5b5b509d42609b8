/** Results about single instructions on any ledger that satisfies the invariant. */
module Lifecycle {
  import opened Types
  import opened Protocol
  import opened Errors
  import opened Ed25519
  import opened State
  import opened Coordinator
  import opened Invariant

  // ---- What an instruction can write ----

  function Writes(call: Call): set<Pubkey> {
    match call
    case InitializeConfig(_, _, k, _) => {k}
    case SetPaused(_, k, _) => {k}
    case RotateOperator(_, k, _) => {k}
    case SetKeyVersion(_, k, _) => {k}
    case CreateAccount(_, _, ak, _, _) => {ak}
    case Submit(_, _, ak, q, _) => {ak, q}
    case Cancel(_, ak, q) => {ak, q}
    case Expire(ak, q) => {ak, q}
    case Finalize(_, ak, q, _, _) => {ak, q}
  }

  lemma ExecFrame(env: Crypto, l: Ledger, ctx: Context, call: Call, k: Pubkey)
    requires Exec(env, l, ctx, call).Ok? && k !in Writes(call)
    ensures var l' := Exec(env, l, ctx, call).value; (k in l' <==> k in l) && (k in l ==> l'[k] == l[k])
  {
  }

  // ---- Guard reduction ----

  /** Finalize's requirements without those that can never fail. */
  function LiveFinalizeGuards(ctx: Context, config: Config, request: Request, requestKey: Pubkey, args: FinalizeArgs)
    : Result<ResultBinding, Error>
  {
    var slot := ctx.slot;
    :- Require(!config.paused, Paused);
    :- Require(request.status == Pending, InvalidStatus);
    :- Require(request.operatorEpoch == config.operatorEpoch, InvalidOperatorEpoch);
    :- Require(request.keyVersion == config.keyVersion, InvalidKeyVersion);
    :- Require(args.circuitId == config.circuitId, InvalidOperation);
    :- Require(args.resultType == RESULT_TYPE_FHE_BOOL, InvalidResult);
    :- RequireCtHash(args.resultHash);
    :- Require(slot < request.expirySlot, Error.Expired);
    var binding := ResultBindingOf(config, request, requestKey, args);
    var _ :- VerifyOperatorMessage(ctx.ixs, ctx.current, config.operator, EncodeResult(binding));
    Ok(binding)
  }

  /** What the invariant says about three records that pass finalize's account constraints. */
  lemma LinkedRecords(env: Crypto, l: Ledger, call: Call)
    requires LedgerInv(env, l) && call.Finalize? && FinalizeConstraints(env, l, call).Ok?
    ensures var v := FinalizeConstraints(env, l, call).value;
            var c, a, r := v.0, v.1, v.2;
            && r.mint == c.mint && a.mint == c.mint && a.config == call.config && r.config == call.config
            && r.confidentialAccount == call.account
            && r.operation == c.operation
            && RequestDigest(env, RequestBindingOf(c, r, call.request)) == r.requestDigest
            && (r.status == Pending ==>
                  && a.pendingRequest == call.request && a.HasPending()
                  && a.requestNonce == r.requestNonce && a.stateVersion == r.stateVersion && a.stateVersion < U64_MAX)
  {
    assert RecordOk(env, l, call.config) && RecordOk(env, l, call.account) && RecordOk(env, l, call.request);
    if RequestAt(l, call.request).status == Pending {
      PendingIsLast(env, l, call.account, call.request);
    }
  }

  /** The pending request is its account's last one. */
  lemma PendingIsLast(env: Crypto, l: Ledger, ak: Pubkey, q: Pubkey)
    requires LedgerInv(env, l) && IsAccount(l, ak) && IsRequest(l, q)
    requires RequestAt(l, q).confidentialAccount == ak && RequestAt(l, q).status == Pending
    ensures var a, r := AccountAt(l, ak), RequestAt(l, q);
            && a.pendingRequest == q && a.HasPending() && a.requestNonce == r.requestNonce
            && a.stateVersion == r.stateVersion && a.stateVersion < U64_MAX
  {
    assert RecordOk(env, l, q) && RecordOk(env, l, ak);
    assert q != DEFAULT_PUBKEY;
    assert HasRequest(env, l, ak, AccountAt(l, ak).requestNonce);
  }

  /**
   * On every ledger satisfying the invariant, once the account constraints are met, finalize behaves
   * as its live requirements alone: the checks of nonce, state version, pending pointer, mint, config,
   * operation, recomputed digest and overflow decide nothing, not even which error is returned.
   */
  lemma FinalizeReduced(env: Crypto, l: Ledger, ctx: Context, call: Call)
    requires LedgerInv(env, l) && call.Finalize? && FinalizeConstraints(env, l, call).Ok?
    ensures var v := FinalizeConstraints(env, l, call).value;
            var live := LiveFinalizeGuards(ctx, v.0, v.2, call.request, call.finalize);
            && (live.Err? ==> ExecFinalize(env, l, ctx, call) == Err(live.error))
            && (live.Ok? <==> ExecFinalize(env, l, ctx, call).Ok?)
  {
    LinkedRecords(env, l, call);
    var v := FinalizeConstraints(env, l, call).value;
    var full := FinalizeGuards(env, ctx, v.0, call.config, v.1, call.account, v.2, call.request, call.finalize);
    assert full == LiveFinalizeGuards(ctx, v.0, v.2, call.request, call.finalize);
  }

  /** The same, as the list of conditions under which finalize succeeds. */
  lemma FinalizeSucceedsIff(env: Crypto, l: Ledger, ctx: Context, call: Call)
    requires LedgerInv(env, l) && call.Finalize? && FinalizeConstraints(env, l, call).Ok?
    ensures var v := FinalizeConstraints(env, l, call).value;
            var c, r := v.0, v.2;
            ExecFinalize(env, l, ctx, call).Ok? <==>
              && !c.paused
              && r.status == Pending
              && r.operatorEpoch == c.operatorEpoch
              && r.keyVersion == c.keyVersion
              && call.finalize.circuitId == c.circuitId
              && call.finalize.resultType == RESULT_TYPE_FHE_BOOL
              && !IsZeroHash(call.finalize.resultHash)
              && ctx.slot < r.expirySlot
              && BindsExactly(ctx.ixs, ctx.current, c.operator,
                              EncodeResult(ResultBindingOf(c, r, call.request, call.finalize)))
  {
    FinalizeReduced(env, l, ctx, call);
    var v := FinalizeConstraints(env, l, call).value;
    IntrospectionExact(ctx.ixs, ctx.current, v.0.operator, EncodeResult(ResultBindingOf(v.0, v.2, call.request, call.finalize)));
  }

  /** Submit, likewise: what is left of its requirements when the account constraints are met. */
  lemma SubmitSucceedsIff(env: Crypto, l: Ledger, ctx: Context, call: Call)
    requires LedgerInv(env, l) && call.Submit? && SubmitConstraints(env, l, call).Ok?
    ensures var v := SubmitConstraints(env, l, call).value;
            var c, a := v.0, v.1;
            ExecSubmit(env, l, ctx, call).Ok? <==>
              && !c.paused
              && !a.HasPending()
              && a.keyVersion == c.keyVersion
              && call.submit.expectedStateVersion == a.stateVersion
              && a.requestNonce < U64_MAX
              && call.submit.expectedNonce == a.requestNonce + 1
              && !IsZeroHash(call.submit.amountHash)
              && ctx.slot + c.maxRequestLifetimeSlots <= U64_MAX
  {
    assert RecordOk(env, l, call.account) && RecordOk(env, l, call.config);
  }

  /** The two optimistic arguments of a successful submit are forced, and tied to each other. */
  lemma SubmitArgumentsForced(env: Crypto, l: Ledger, ctx: Context, call: Call)
    requires LedgerInv(env, l) && call.Submit? && ExecSubmit(env, l, ctx, call).Ok?
    ensures IsAccount(l, call.account)
    ensures call.submit.expectedStateVersion == AccountAt(l, call.account).stateVersion
    ensures call.submit.expectedStateVersion == call.submit.expectedNonce - 1
  {
    SubmitOpens(env, l, ctx, call);
    assert RecordOk(env, l, call.account);
  }

  /** Field by field, the request a successful submit leaves, and what it changes on the account. */
  lemma SubmitEffect(env: Crypto, l: Ledger, ctx: Context, call: Call)
    requires call.Submit? && ExecSubmit(env, l, ctx, call).Ok?
    ensures var l' := ExecSubmit(env, l, ctx, call).value;
            && IsConfig(l, call.config) && IsAccount(l, call.account) && call.request !in l
            && IsAccount(l', call.account) && IsRequest(l', call.request)
            && var c, a, r := ConfigAt(l, call.config), AccountAt(l, call.account), RequestAt(l', call.request);
            && r.requester == call.owner == a.owner && r.config == call.config && r.mint == c.mint
            && r.confidentialAccount == call.account && r.operation == c.operation
            && r.balanceHash == a.balanceRef && r.amountHash == call.submit.amountHash && r.limitHash == a.limitRef
            && r.paramsHash == c.paramsHash && r.stateVersion == a.stateVersion && r.requestNonce == a.requestNonce + 1
            && r.keyVersion == c.keyVersion && r.operatorEpoch == c.operatorEpoch
            && r.createdSlot == ctx.slot && r.expirySlot == ctx.slot + c.maxRequestLifetimeSlots
            && r.status == Pending && r.resultHash == ZERO32 && r.resultDigest == ZERO32
            && r.requestDigest == RequestDigest(env, RequestBindingOf(c, r, call.request))
            && AccountAt(l', call.account) == a.(requestNonce := a.requestNonce + 1, pendingRequest := call.request)
  {
    SubmitOpens(env, l, ctx, call);
    var c, a := ConfigAt(l, call.config), AccountAt(l, call.account);
    var r := OpenedRequest(env, c, call.config, a, call.account, call.request, ctx.slot, call.submit.amountHash);
    assert RequestBindingOf(c, r, call.request) == RequestBindingOf(c, r.(requestDigest := ZERO32), call.request);
  }

  // ---- Admin instructions and release ----

  /** Cancel and expire read no config: whatever an admin instruction wrote, they do exactly the same. */
  lemma AdminSparesRelease(env: Crypto, l: Ledger, ctx: Context, k: Pubkey, c: Config, call: Call)
    requires IsConfig(l, k) && (call.Cancel? || call.Expire?)
    ensures match Exec(env, l, ctx, call)
            case Ok(done) => Exec(env, l[k := ConfigRecord(c)], ctx, call) == Ok(done[k := ConfigRecord(c)])
            case Err(e) => Exec(env, l[k := ConfigRecord(c)], ctx, call) == Err(e)
  {
    if call.Cancel? {
      assert CancelConstraints(env, l[k := ConfigRecord(c)], call) == CancelConstraints(env, l, call);
    } else {
      assert ExpireConstraints(env, l[k := ConfigRecord(c)], call) == ExpireConstraints(env, l, call);
    }
    if Exec(env, l, ctx, call).Ok? {
      var done := Exec(env, l, ctx, call).value;
      StoreBeside(l, k, ConfigRecord(c), call.account, call.request, (done[call.account].account, done[call.request].request));
    }
  }

  lemma StoreBeside(l: Ledger, k: Pubkey, x: Record, ak: Pubkey, q: Pubkey, pair: (ConfidentialAccount, Request))
    requires k != ak && k != q
    ensures Store(l[k := x], ak, q, pair) == Store(l, ak, q, pair)[k := x]
  {
  }

  /** Pausing sets the flag and nothing else, so unpausing restores the very same ledger. */
  lemma PauseReversible(env: Crypto, l: Ledger, ctx: Context, authority: Pubkey, k: Pubkey)
    requires IsConfig(l, k) && ConfigAt(l, k).authority == authority && !ConfigAt(l, k).paused
    ensures var there := Exec(env, l, ctx, SetPaused(authority, k, true));
            && there.Ok? && IsConfig(there.value, k) && ConfigAt(there.value, k) == ConfigAt(l, k).(paused := true)
            && Exec(env, there.value, ctx, SetPaused(authority, k, false)) == Ok(l)
  {
    var c := ConfigAt(l, k);
    var there := ExecSetPaused(l, SetPaused(authority, k, true)).value;
    assert there == l[k := ConfigRecord(c.(paused := true))];
    assert there[k := ConfigRecord(c)] == l;
  }

  // ---- The lock can always be released ----

  /**
   * A pending request can be cancelled by the owner exactly before its expiry and expired by anyone
   * exactly from then on, whatever the config says; the step always succeeds and frees the account.
   */
  lemma LockAlwaysReleasable(env: Crypto, l: Ledger, ctx: Context, q: Pubkey)
    requires LedgerInv(env, l) && IsRequest(l, q) && RequestAt(l, q).status == Pending
    ensures var r := RequestAt(l, q);
            var ak := r.confidentialAccount;
            && IsAccount(l, ak)
            && var cancel := ExecCancel(env, l, ctx, Cancel(AccountAt(l, ak).owner, ak, q));
            && var expire := ExecExpire(env, l, ctx, Expire(ak, q));
            && (cancel.Ok? <==> ctx.slot < r.expirySlot)
            && (expire.Ok? <==> ctx.slot >= r.expirySlot)
            && (cancel.Ok? <==> expire.Err?)
            && (cancel.Ok? ==> IsAccount(cancel.value, ak) && !AccountAt(cancel.value, ak).HasPending()
                               && RequestAt(cancel.value, q).status == Cancelled)
            && (expire.Ok? ==> IsAccount(expire.value, ak) && !AccountAt(expire.value, ak).HasPending()
                               && RequestAt(expire.value, q).status == Status.Expired)
  {
    var r := RequestAt(l, q);
    var ak := r.confidentialAccount;
    assert RecordOk(env, l, q);
    assert RecordOk(env, l, ak);
    PendingIsLast(env, l, ak, q);
  }

  /** Changing the key version is not final: setting it back restores the very same ledger, in-flight requests included. */
  lemma KeyVersionReversible(env: Crypto, l: Ledger, ctx: Context, authority: Pubkey, k: Pubkey, version: u32)
    requires IsConfig(l, k) && ConfigAt(l, k).authority == authority
    ensures var there := Exec(env, l, ctx, SetKeyVersion(authority, k, version));
            && there.Ok? && IsConfig(there.value, k) && ConfigAt(there.value, k) == ConfigAt(l, k).(keyVersion := version)
            && Exec(env, there.value, ctx, SetKeyVersion(authority, k, ConfigAt(l, k).keyVersion)) == Ok(l)
  {
    var c := ConfigAt(l, k);
    var there := ExecSetKeyVersion(l, SetKeyVersion(authority, k, version)).value;
    assert there == l[k := ConfigRecord(c.(keyVersion := version))];
    assert there[k := ConfigRecord(c)] == l;
  }
}
