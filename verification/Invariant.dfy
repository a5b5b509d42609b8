/** What every reachable ledger satisfies, and how records may change from one ledger to a later one. */
module Invariant {
  import opened Types
  import opened Protocol
  import opened Ed25519
  import opened State
  import opened Coordinator

  ghost predicate ConfigOk(env: Crypto, k: Pubkey, c: Config) {
    && k == ConfigPda(env, c.mint)
    && c.operatorEpoch >= 1
    && c.operator != DEFAULT_PUBKEY
    && c.operation == OPERATION_POLICY_CHECK
    && c.circuitId == CIRCUIT_POLICY_V1
    && c.protocolVersion == PROTOCOL_VERSION
    && c.maxRequestLifetimeSlots > 0
    && !IsZeroHash(c.paramsHash)
  }

  /** The account's request number `n` exists, at its derived address. */
  ghost predicate HasRequest(env: Crypto, l: Ledger, account: Pubkey, n: u64) {
    var q := RequestPda(env, account, n);
    IsRequest(l, q) && RequestAt(l, q).confidentialAccount == account && RequestAt(l, q).requestNonce == n
  }

  ghost predicate AccountOk(env: Crypto, l: Ledger, k: Pubkey, a: ConfidentialAccount) {
    && k == AccountPda(env, a.mint, a.owner)
    && IsConfig(l, a.config)
    && ConfigAt(l, a.config).mint == a.mint
    && !IsZeroHash(a.balanceRef)
    && !IsZeroHash(a.limitRef)
    && a.requestNonce == a.stateVersion + (if a.HasPending() then 1 else 0)
    && (a.HasPending() ==> a.pendingRequest == RequestPda(env, k, a.requestNonce))
    && forall n: u64 :: 1 <= n <= a.requestNonce ==> HasRequest(env, l, k, n)
  }

  /** The request's fixed part agrees with its account and config. */
  ghost predicate RequestLinked(env: Crypto, l: Ledger, k: Pubkey, r: Request) {
    && IsAccount(l, r.confidentialAccount)
    && IsConfig(l, r.config)
    && var a := AccountAt(l, r.confidentialAccount);
    && var c := ConfigAt(l, r.config);
    && k == RequestPda(env, r.confidentialAccount, r.requestNonce)
    && 1 <= r.requestNonce <= a.requestNonce
    && r.stateVersion == r.requestNonce - 1
    && r.config == a.config
    && r.mint == a.mint
    && r.requester == a.owner
    && r.balanceHash == a.balanceRef
    && r.limitHash == a.limitRef
    && !IsZeroHash(r.amountHash)
    && r.keyVersion == a.keyVersion
    && r.paramsHash == c.paramsHash
    && r.operation == c.operation
    && 1 <= r.operatorEpoch <= c.operatorEpoch
    && r.expirySlot == r.createdSlot + c.maxRequestLifetimeSlots
    && r.requestDigest == RequestDigest(env, RequestBindingOf(c, r, k))
  }

  /** The result fields that a Finalized request carries, in the form finalize receives them. */
  function StoredResult(c: Config, r: Request): FinalizeArgs {
    FinalizeArgs(r.resultHash, RESULT_TYPE_FHE_BOOL, c.circuitId)
  }

  /** The binding behind a Finalized request's stored result. */
  function StoredBinding(c: Config, r: Request, k: Pubkey): ResultBinding {
    ResultBindingOf(c, r, k, StoredResult(c, r))
  }

  ghost predicate RequestSettled(env: Crypto, l: Ledger, k: Pubkey, r: Request)
    requires RequestLinked(env, l, k, r)
  {
    && !r.status.Other?
    && (r.status == Pending <==> AccountAt(l, r.confidentialAccount).pendingRequest == k)
    && if r.status == Finalized then
         !IsZeroHash(r.resultHash) && r.resultDigest == ResultDigest(env, StoredBinding(ConfigAt(l, r.config), r, k))
       else
         r.resultHash == ZERO32 && r.resultDigest == ZERO32
  }

  ghost predicate RecordOk(env: Crypto, l: Ledger, k: Pubkey)
    requires k in l
  {
    match l[k]
    case ConfigRecord(c) => ConfigOk(env, k, c)
    case AccountRecord(a) => AccountOk(env, l, k, a)
    case RequestRecord(r) => RequestLinked(env, l, k, r) && RequestSettled(env, l, k, r)
  }

  ghost predicate LedgerInv(env: Crypto, l: Ledger) {
    forall k {:trigger RecordOk(env, l, k)} :: k in l ==> RecordOk(env, l, k)
  }

  // ---- How records evolve ----

  predicate ConfigEvolves(c: Config, c': Config) {
    && c' == c.(operator := c'.operator, operatorEpoch := c'.operatorEpoch, keyVersion := c'.keyVersion, paused := c'.paused)
    && c.operatorEpoch <= c'.operatorEpoch
    && (c.operatorEpoch == c'.operatorEpoch ==> c.operator == c'.operator)
  }

  predicate AccountEvolves(a: ConfidentialAccount, a': ConfidentialAccount) {
    && a' == a.(stateVersion := a'.stateVersion, requestNonce := a'.requestNonce, pendingRequest := a'.pendingRequest)
    && a.stateVersion <= a'.stateVersion
    && a.requestNonce <= a'.requestNonce
  }

  /** Only status and result change, and only while Pending. */
  predicate RequestEvolves(r: Request, r': Request) {
    && r' == r.(status := r'.status, resultHash := r'.resultHash, resultDigest := r'.resultDigest)
    && (r.status != Pending ==> r' == r)
    && (r'.status == Pending ==> r' == r)
  }

  predicate RecordEvolves(x: Record, x': Record) {
    match (x, x')
    case (ConfigRecord(c), ConfigRecord(c')) => ConfigEvolves(c, c')
    case (AccountRecord(a), AccountRecord(a')) => AccountEvolves(a, a')
    case (RequestRecord(r), RequestRecord(r')) => RequestEvolves(r, r')
    case _ => false
  }

  predicate KeyEvolves(l: Ledger, l': Ledger, k: Pubkey) {
    k in l ==> k in l' && RecordEvolves(l[k], l'[k])
  }

  /** Nothing is deleted and every record evolves. */
  ghost predicate Evolves(l: Ledger, l': Ledger) {
    forall k :: KeyEvolves(l, l', k)
  }

  lemma EvolvesTransitive(l: Ledger, l': Ledger, l'': Ledger)
    requires Evolves(l, l') && Evolves(l', l'')
    ensures Evolves(l, l'')
  {
    forall k
      ensures KeyEvolves(l, l'', k)
    {
      assert KeyEvolves(l, l', k) && KeyEvolves(l', l'', k);
    }
  }

  lemma HasRequestEvolves(env: Crypto, l: Ledger, l': Ledger, account: Pubkey, n: u64)
    requires Evolves(l, l') && HasRequest(env, l, account, n)
    ensures HasRequest(env, l', account, n)
  {
    var q := RequestPda(env, account, n);
    assert KeyEvolves(l, l', q);
  }

  /** An account's own record aside, its condition survives any evolution. */
  lemma AccountOkEvolves(env: Crypto, l: Ledger, l': Ledger, k: Pubkey, a: ConfidentialAccount)
    requires AccountOk(env, l, k, a) && Evolves(l, l')
    ensures AccountOk(env, l', k, a)
  {
    assert KeyEvolves(l, l', a.config);
    forall n: u64 | 1 <= n <= a.requestNonce
      ensures HasRequest(env, l', k, n)
    {
      HasRequestEvolves(env, l, l', k, n);
    }
  }

  lemma BindingStable(c: Config, c': Config, r: Request, r': Request, k: Pubkey)
    requires ConfigEvolves(c, c') && RequestEvolves(r, r')
    ensures RequestBindingOf(c, r, k) == RequestBindingOf(c', r', k)
  {
  }

  lemma RequestLinkedEvolves(env: Crypto, l: Ledger, l': Ledger, k: Pubkey, r: Request, r': Request)
    requires RequestLinked(env, l, k, r) && Evolves(l, l') && RequestEvolves(r, r')
    ensures RequestLinked(env, l', k, r')
  {
    assert KeyEvolves(l, l', r.config);
    assert KeyEvolves(l, l', r.confidentialAccount);
    BindingStable(ConfigAt(l, r.config), ConfigAt(l', r.config), r, r', k);
  }

  /** A request that did not change, under an account whose lock did not move, stays settled. */
  lemma RequestOkEvolves(env: Crypto, l: Ledger, l': Ledger, k: Pubkey, r: Request)
    requires RequestLinked(env, l, k, r) && RequestSettled(env, l, k, r) && Evolves(l, l')
    requires IsAccount(l', r.confidentialAccount)
    requires (AccountAt(l', r.confidentialAccount).pendingRequest == k) <==> (AccountAt(l, r.confidentialAccount).pendingRequest == k)
    ensures RequestLinked(env, l', k, r) && RequestSettled(env, l', k, r)
  {
    RequestLinkedEvolves(env, l, l', k, r, r);
    assert KeyEvolves(l, l', r.config);
    BindingStable(ConfigAt(l, r.config), ConfigAt(l', r.config), r, r, k);
  }

  /** A record that was not written stays in order, provided a request's lock did not move. */
  lemma UntouchedOk(env: Crypto, l: Ledger, l': Ledger, j: Pubkey)
    requires j in l && RecordOk(env, l, j) && Evolves(l, l')
    requires j in l' && l'[j] == l[j]
    requires l[j].RequestRecord? ==>
               var ak := l[j].request.confidentialAccount;
               IsAccount(l', ak) && (AccountAt(l', ak).pendingRequest == j <==> AccountAt(l, ak).pendingRequest == j)
    ensures RecordOk(env, l', j)
  {
    match l[j]
    case ConfigRecord(_) =>
    case AccountRecord(a) => AccountOkEvolves(env, l, l', j, a);
    case RequestRecord(r) => RequestOkEvolves(env, l, l', j, r);
  }

  // ---- Preservation, one family of instructions at a time ----

  /** Writing a config, or a new account without requests: no lock moves. */
  lemma WritePreserves(env: Crypto, l: Ledger, k: Pubkey, x: Record)
    requires LedgerInv(env, l) && !x.RequestRecord?
    requires k in l ==> RecordEvolves(l[k], x) && x.ConfigRecord?
    requires RecordOk(env, l[k := x], k)
    ensures LedgerInv(env, l[k := x]) && Evolves(l, l[k := x])
  {
    var l' := l[k := x];
    assert Evolves(l, l');
    forall j | j in l'
      ensures RecordOk(env, l', j)
    {
      if j != k {
        assert RecordOk(env, l, j);
        UntouchedOk(env, l, l', j);
      }
    }
  }

  lemma CreatePreserves(env: Crypto, l: Ledger, call: Call)
    requires LedgerInv(env, l) && call.CreateAccount? && ExecCreate(env, l, call).Ok?
    ensures var l' := ExecCreate(env, l, call).value; LedgerInv(env, l') && Evolves(l, l')
  {
    var l' := ExecCreate(env, l, call).value;
    assert RecordOk(env, l, call.config);
    WritePreserves(env, l, call.account, l'[call.account]);
  }

  /** No request of `ak` but `q` has its lock moved by writing `a'` over the account. */
  ghost predicate OtherLocksUnmoved(l: Ledger, ak: Pubkey, q: Pubkey, a': ConfidentialAccount)
    requires IsAccount(l, ak)
  {
    forall j :: IsRequest(l, j) && j != q && RequestAt(l, j).confidentialAccount == ak ==>
                  (a'.pendingRequest == j <==> AccountAt(l, ak).pendingRequest == j)
  }

  lemma PairEvolves(l: Ledger, ak: Pubkey, q: Pubkey, pair: (ConfidentialAccount, Request))
    requires IsAccount(l, ak) && ak != q
    requires AccountEvolves(AccountAt(l, ak), pair.0)
    requires q in l ==> IsRequest(l, q) && RequestEvolves(RequestAt(l, q), pair.1)
    ensures Evolves(l, Store(l, ak, q, pair))
  {
  }

  lemma PairOther(env: Crypto, l: Ledger, ak: Pubkey, q: Pubkey, pair: (ConfidentialAccount, Request), j: Pubkey)
    requires LedgerInv(env, l) && IsAccount(l, ak) && ak != q
    requires Evolves(l, Store(l, ak, q, pair))
    requires OtherLocksUnmoved(l, ak, q, pair.0)
    requires j in l && j != ak && j != q
    ensures RecordOk(env, Store(l, ak, q, pair), j)
  {
    var l' := Store(l, ak, q, pair);
    assert RecordOk(env, l, j);
    if l[j].RequestRecord? {
      var b := l[j].request.confidentialAccount;
      assert KeyEvolves(l, l', b) && IsAccount(l, b);
      if b == ak {
        assert IsRequest(l, j) && RequestAt(l, j).confidentialAccount == ak;
        assert AccountAt(l', b) == pair.0;
      } else {
        assert b != q;
      }
    }
    UntouchedOk(env, l, l', j);
  }

  /** Writing an account's lock and one of its requests, when every other request's lock is unmoved. */
  lemma PairPreserves(env: Crypto, l: Ledger, ak: Pubkey, q: Pubkey, pair: (ConfidentialAccount, Request))
    requires LedgerInv(env, l) && IsAccount(l, ak) && ak != q
    requires Evolves(l, Store(l, ak, q, pair))
    requires OtherLocksUnmoved(l, ak, q, pair.0)
    requires RecordOk(env, Store(l, ak, q, pair), ak) && RecordOk(env, Store(l, ak, q, pair), q)
    ensures LedgerInv(env, Store(l, ak, q, pair))
  {
    var l' := Store(l, ak, q, pair);
    forall j | j in l'
      ensures RecordOk(env, l', j)
    {
      if j != ak && j != q {
        PairOther(env, l, ak, q, pair, j);
      }
    }
  }

  /** The request a submit writes. */
  function OpenedRequest(env: Crypto, c: Config, ck: Pubkey, a: ConfidentialAccount, ak: Pubkey, q: Pubkey,
                         slot: u64, amountHash: Bytes32): Request
    requires a.requestNonce < U64_MAX && slot + c.maxRequestLifetimeSlots <= U64_MAX
  {
    var draft := DraftRequest(c, ck, a, ak, a.owner, amountHash, a.requestNonce + 1, slot, slot + c.maxRequestLifetimeSlots);
    draft.(requestDigest := RequestDigest(env, RequestBindingOf(c, draft, q)))
  }

  function OpenedAccount(a: ConfidentialAccount, q: Pubkey): ConfidentialAccount
    requires a.requestNonce < U64_MAX
  {
    a.(requestNonce := a.requestNonce + 1, pendingRequest := q)
  }

  /** An idle account on which request number `nonce + 1` can be opened at address `q`. */
  ghost predicate CanOpen(env: Crypto, l: Ledger, ck: Pubkey, ak: Pubkey, q: Pubkey, slot: u64, amountHash: Bytes32) {
    && IsConfig(l, ck) && IsAccount(l, ak) && q !in l
    && var c, a := ConfigAt(l, ck), AccountAt(l, ak);
    && a.config == ck && !a.HasPending() && a.keyVersion == c.keyVersion
    && a.requestNonce < U64_MAX && q == RequestPda(env, ak, a.requestNonce + 1)
    && !IsZeroHash(amountHash) && slot + c.maxRequestLifetimeSlots <= U64_MAX
  }

  /** `r` is a fresh request number `nonce + 1` of the account, with the config's terms and its own digest. */
  ghost predicate Fresh(env: Crypto, c: Config, ck: Pubkey, a: ConfidentialAccount, ak: Pubkey, q: Pubkey, r: Request) {
    && r.requester == a.owner && r.config == ck && r.mint == c.mint && r.confidentialAccount == ak
    && r.operation == c.operation && r.paramsHash == c.paramsHash
    && r.balanceHash == a.balanceRef && r.limitHash == a.limitRef && !IsZeroHash(r.amountHash)
    && r.stateVersion == a.stateVersion && r.requestNonce == a.requestNonce + 1
    && r.keyVersion == c.keyVersion && r.operatorEpoch == c.operatorEpoch
    && r.expirySlot == r.createdSlot + c.maxRequestLifetimeSlots
    && r.status == Pending && r.resultHash == ZERO32 && r.resultDigest == ZERO32
    && r.requestDigest == RequestDigest(env, RequestBindingOf(c, r, q))
  }

  lemma OpenedIsFresh(env: Crypto, c: Config, ck: Pubkey, a: ConfidentialAccount, ak: Pubkey, q: Pubkey, slot: u64, amountHash: Bytes32)
    requires a.requestNonce < U64_MAX && slot + c.maxRequestLifetimeSlots <= U64_MAX && !IsZeroHash(amountHash)
    ensures Fresh(env, c, ck, a, ak, q, OpenedRequest(env, c, ck, a, ak, q, slot, amountHash))
  {
    var r := OpenedRequest(env, c, ck, a, ak, q, slot, amountHash);
    assert RequestBindingOf(c, r, q) == RequestBindingOf(c, r.(requestDigest := ZERO32), q);
  }

  lemma FreshRequestOk(env: Crypto, l: Ledger, ck: Pubkey, ak: Pubkey, q: Pubkey, slot: u64, amountHash: Bytes32, r: Request)
    requires LedgerInv(env, l) && CanOpen(env, l, ck, ak, q, slot, amountHash)
    requires Fresh(env, ConfigAt(l, ck), ck, AccountAt(l, ak), ak, q, r)
    ensures RecordOk(env, Store(l, ak, q, (OpenedAccount(AccountAt(l, ak), q), r)), q)
  {
    var c, a := ConfigAt(l, ck), AccountAt(l, ak);
    var l' := Store(l, ak, q, (OpenedAccount(a, q), r));
    assert RecordOk(env, l, ak) && RecordOk(env, l, ck);
    assert ConfigAt(l', ck) == c && AccountAt(l', ak) == OpenedAccount(a, q);
    assert RequestLinked(env, l', q, r);
  }

  lemma OpenedAccountOk(env: Crypto, l: Ledger, ak: Pubkey, q: Pubkey, r: Request)
    requires IsAccount(l, ak) && AccountOk(env, l, ak, AccountAt(l, ak)) && !AccountAt(l, ak).HasPending()
    requires AccountAt(l, ak).requestNonce < U64_MAX && q == RequestPda(env, ak, AccountAt(l, ak).requestNonce + 1) && ak != q
    requires r.confidentialAccount == ak && r.requestNonce == AccountAt(l, ak).requestNonce + 1
    requires Evolves(l, Store(l, ak, q, (OpenedAccount(AccountAt(l, ak), q), r)))
    ensures AccountOk(env, Store(l, ak, q, (OpenedAccount(AccountAt(l, ak), q), r)), ak, OpenedAccount(AccountAt(l, ak), q))
  {
    var a := AccountAt(l, ak);
    var l' := Store(l, ak, q, (OpenedAccount(a, q), r));
    AccountOkEvolves(env, l, l', ak, a);
    forall n: u64 | 1 <= n <= a.requestNonce + 1
      ensures HasRequest(env, l', ak, n)
    {
    }
  }

  /** Opening request number `nonce + 1` on an idle account. */
  lemma OpenPreserves(env: Crypto, l: Ledger, ck: Pubkey, ak: Pubkey, q: Pubkey, slot: u64, amountHash: Bytes32)
    requires LedgerInv(env, l) && CanOpen(env, l, ck, ak, q, slot, amountHash)
    ensures var c, a := ConfigAt(l, ck), AccountAt(l, ak);
            var l' := Store(l, ak, q, (OpenedAccount(a, q), OpenedRequest(env, c, ck, a, ak, q, slot, amountHash)));
            LedgerInv(env, l') && Evolves(l, l')
  {
    var a := AccountAt(l, ak);
    var pair := (OpenedAccount(a, q), OpenedRequest(env, ConfigAt(l, ck), ck, a, ak, q, slot, amountHash));
    assert ak != q;
    PairEvolves(l, ak, q, pair);
    OpenedIsFresh(env, ConfigAt(l, ck), ck, a, ak, q, slot, amountHash);
    FreshRequestOk(env, l, ck, ak, q, slot, amountHash, pair.1);
    assert RecordOk(env, l, ak);
    OpenedAccountOk(env, l, ak, q, pair.1);
    forall j | IsRequest(l, j) && j != q && RequestAt(l, j).confidentialAccount == ak
      ensures pair.0.pendingRequest == j <==> a.pendingRequest == j
    {
      IdleLock(env, l, ak, j);
    }
    PairPreserves(env, l, ak, q, pair);
  }

  /** An idle account's lock names none of its requests. */
  lemma IdleLock(env: Crypto, l: Ledger, ak: Pubkey, j: Pubkey)
    requires LedgerInv(env, l) && IsAccount(l, ak) && IsRequest(l, j)
    requires RequestAt(l, j).confidentialAccount == ak && !AccountAt(l, ak).HasPending()
    ensures AccountAt(l, ak).pendingRequest != j
  {
    assert RecordOk(env, l, j);
  }

  /** What submit's requirements establish. */
  lemma SubmitGuardsMean(c: Config, ck: Pubkey, a: ConfidentialAccount, owner: Pubkey, args: SubmitArgs, slot: u64)
    requires SubmitGuards(c, ck, a, owner, args, slot).Ok?
    ensures !c.paused && !a.HasPending() && a.config == ck && a.owner == owner && a.keyVersion == c.keyVersion
    ensures args.expectedStateVersion == a.stateVersion && !IsZeroHash(args.amountHash)
    ensures a.requestNonce < U64_MAX && args.expectedNonce == a.requestNonce + 1
    ensures slot + c.maxRequestLifetimeSlots <= U64_MAX
    ensures SubmitGuards(c, ck, a, owner, args, slot) == Ok((a.requestNonce + 1, slot + c.maxRequestLifetimeSlots))
  {
  }

  /** What a successful submit does: it opens request `nonce + 1` of an idle account. */
  lemma SubmitOpens(env: Crypto, l: Ledger, ctx: Context, call: Call)
    requires call.Submit? && ExecSubmit(env, l, ctx, call).Ok?
    ensures CanOpen(env, l, call.config, call.account, call.request, ctx.slot, call.submit.amountHash)
    ensures var c, a := ConfigAt(l, call.config), AccountAt(l, call.account);
            && a.owner == call.owner && !c.paused
            && call.submit.expectedStateVersion == a.stateVersion && call.submit.expectedNonce == a.requestNonce + 1
            && ExecSubmit(env, l, ctx, call).value
               == Store(l, call.account, call.request,
                        (OpenedAccount(a, call.request),
                         OpenedRequest(env, c, call.config, a, call.account, call.request, ctx.slot, call.submit.amountHash)))
  {
    var v := SubmitConstraints(env, l, call).value;
    SubmitGuardsMean(v.0, call.config, v.1, call.owner, call.submit, ctx.slot);
  }

  /** What the three closing instructions have in common. */
  predicate Closes(l: Ledger, ak: Pubkey, q: Pubkey, pair: (ConfidentialAccount, Request)) {
    && IsAccount(l, ak) && IsRequest(l, q)
    && RequestAt(l, q).status == Pending
    && AccountAt(l, ak).pendingRequest == q
    && RequestAt(l, q).confidentialAccount == ak
    && ReleasedAccount(AccountAt(l, ak)) == Ok(pair.0)
    && pair.1.status != Pending && !pair.1.status.Other?
    && RequestEvolves(RequestAt(l, q), pair.1)
  }

  lemma ClosePreserves(env: Crypto, l: Ledger, ak: Pubkey, q: Pubkey, pair: (ConfidentialAccount, Request))
    requires LedgerInv(env, l) && Closes(l, ak, q, pair) && IsConfig(l, RequestAt(l, q).config)
    requires if pair.1.status == Finalized then
               !IsZeroHash(pair.1.resultHash)
               && pair.1.resultDigest == ResultDigest(env, StoredBinding(ConfigAt(l, RequestAt(l, q).config), pair.1, q))
             else
               pair.1.resultHash == ZERO32 && pair.1.resultDigest == ZERO32
    ensures LedgerInv(env, Store(l, ak, q, pair)) && Evolves(l, Store(l, ak, q, pair))
  {
    var l' := Store(l, ak, q, pair);
    var a := AccountAt(l, ak);
    assert RecordOk(env, l, ak) && RecordOk(env, l, q);
    assert ak != q;
    PairEvolves(l, ak, q, pair);
    AccountOkEvolves(env, l, l', ak, a);
    assert AccountOk(env, l', ak, pair.0);
    RequestLinkedEvolves(env, l, l', q, RequestAt(l, q), pair.1);
    assert q != DEFAULT_PUBKEY;
    assert RequestSettled(env, l', q, pair.1);
    forall j | IsRequest(l, j) && j != q && RequestAt(l, j).confidentialAccount == ak
      ensures pair.0.pendingRequest == j <==> a.pendingRequest == j
    {
      assert RecordOk(env, l, j);
    }
    PairPreserves(env, l, ak, q, pair);
  }

  lemma CancelCloses(env: Crypto, l: Ledger, ctx: Context, call: Call)
    requires call.Cancel? && ExecCancel(env, l, ctx, call).Ok?
    ensures IsAccount(l, call.account) && IsRequest(l, call.request) && ReleasedAccount(AccountAt(l, call.account)).Ok?
    ensures var pair := (ReleasedAccount(AccountAt(l, call.account)).value, RequestAt(l, call.request).(status := Cancelled));
            Closes(l, call.account, call.request, pair) && ExecCancel(env, l, ctx, call).value == Store(l, call.account, call.request, pair)
    ensures ctx.slot < RequestAt(l, call.request).expirySlot && AccountAt(l, call.account).owner == call.owner
  {
  }

  lemma ExpireCloses(env: Crypto, l: Ledger, ctx: Context, call: Call)
    requires call.Expire? && ExecExpire(env, l, ctx, call).Ok?
    ensures IsAccount(l, call.account) && IsRequest(l, call.request) && ReleasedAccount(AccountAt(l, call.account)).Ok?
    ensures var pair := (ReleasedAccount(AccountAt(l, call.account)).value, RequestAt(l, call.request).(status := Status.Expired));
            Closes(l, call.account, call.request, pair) && ExecExpire(env, l, ctx, call).value == Store(l, call.account, call.request, pair)
    ensures ctx.slot >= RequestAt(l, call.request).expirySlot
  {
  }

  /** A successful finalize closes the request with exactly the result it verified. */
  lemma FinalizeCloses(env: Crypto, l: Ledger, ctx: Context, call: Call)
    requires call.Finalize? && ExecFinalize(env, l, ctx, call).Ok?
    ensures IsConfig(l, call.config) && IsAccount(l, call.account) && IsRequest(l, call.request)
    ensures ReleasedAccount(AccountAt(l, call.account)).Ok?
    ensures var c, r := ConfigAt(l, call.config), RequestAt(l, call.request);
            var b := ResultBindingOf(c, r, call.request, call.finalize);
            var r' := FinalizedRequest(env, c, r, call.request, call.finalize);
            var pair := (ReleasedAccount(AccountAt(l, call.account)).value, r');
            && r.config == call.config
            && Closes(l, call.account, call.request, pair)
            && ExecFinalize(env, l, ctx, call).value == Store(l, call.account, call.request, pair)
            && b == StoredBinding(c, r', call.request)
            && !IsZeroHash(r'.resultHash)
            && ctx.slot < r.expirySlot
            && r.operatorEpoch == c.operatorEpoch
            && VerifyOperatorMessage(ctx.ixs, ctx.current, c.operator, EncodeResult(b)).Ok?
  {
  }

  /** Every successful instruction keeps the invariant and only lets records evolve. */
  lemma ExecPreserves(env: Crypto, l: Ledger, ctx: Context, call: Call)
    requires LedgerInv(env, l) && Exec(env, l, ctx, call).Ok?
    ensures var l' := Exec(env, l, ctx, call).value; LedgerInv(env, l') && Evolves(l, l')
  {
    match call
    case InitializeConfig(_, _, _, _) => InitializePreserves(env, l, call);
    case SetPaused(_, _, _) => AdminPreserves(env, l, ctx, call);
    case RotateOperator(_, _, _) => AdminPreserves(env, l, ctx, call);
    case SetKeyVersion(_, _, _) => AdminPreserves(env, l, ctx, call);
    case CreateAccount(_, _, _, _, _) => CreatePreserves(env, l, call);
    case Submit(_, _, _, _, _) => SubmitPreserves(env, l, ctx, call);
    case Cancel(_, _, _) => CancelPreserves(env, l, ctx, call);
    case Expire(_, _) => ExpirePreserves(env, l, ctx, call);
    case Finalize(_, _, _, _, _) => FinalizePreserves(env, l, ctx, call);
  }

  lemma InitializePreserves(env: Crypto, l: Ledger, call: Call)
    requires LedgerInv(env, l) && call.InitializeConfig? && ExecInitialize(env, l, call).Ok?
    ensures var l' := ExecInitialize(env, l, call).value; LedgerInv(env, l') && Evolves(l, l')
  {
    WritePreserves(env, l, call.config, ExecInitialize(env, l, call).value[call.config]);
  }

  /** The three admin instructions rewrite one config, keeping its fixed fields. */
  lemma AdminPreserves(env: Crypto, l: Ledger, ctx: Context, call: Call)
    requires call.SetPaused? || call.RotateOperator? || call.SetKeyVersion?
    requires LedgerInv(env, l) && Exec(env, l, ctx, call).Ok?
    ensures var l' := Exec(env, l, ctx, call).value; LedgerInv(env, l') && Evolves(l, l')
  {
    assert RecordOk(env, l, call.config);
    var c' := Exec(env, l, ctx, call).value[call.config].config;
    assert Exec(env, l, ctx, call).value == l[call.config := ConfigRecord(c')];
    assert ConfigEvolves(ConfigAt(l, call.config), c');
    WritePreserves(env, l, call.config, ConfigRecord(c'));
  }

  lemma SubmitPreserves(env: Crypto, l: Ledger, ctx: Context, call: Call)
    requires LedgerInv(env, l) && call.Submit? && ExecSubmit(env, l, ctx, call).Ok?
    ensures var l' := ExecSubmit(env, l, ctx, call).value; LedgerInv(env, l') && Evolves(l, l')
  {
    SubmitOpens(env, l, ctx, call);
    OpenPreserves(env, l, call.config, call.account, call.request, ctx.slot, call.submit.amountHash);
  }

  lemma CancelPreserves(env: Crypto, l: Ledger, ctx: Context, call: Call)
    requires LedgerInv(env, l) && call.Cancel? && ExecCancel(env, l, ctx, call).Ok?
    ensures var l' := ExecCancel(env, l, ctx, call).value; LedgerInv(env, l') && Evolves(l, l')
  {
    CancelCloses(env, l, ctx, call);
    assert RecordOk(env, l, call.request);
    ClosePreserves(env, l, call.account, call.request,
                   (ReleasedAccount(AccountAt(l, call.account)).value, RequestAt(l, call.request).(status := Cancelled)));
  }

  lemma ExpirePreserves(env: Crypto, l: Ledger, ctx: Context, call: Call)
    requires LedgerInv(env, l) && call.Expire? && ExecExpire(env, l, ctx, call).Ok?
    ensures var l' := ExecExpire(env, l, ctx, call).value; LedgerInv(env, l') && Evolves(l, l')
  {
    ExpireCloses(env, l, ctx, call);
    assert RecordOk(env, l, call.request);
    ClosePreserves(env, l, call.account, call.request,
                   (ReleasedAccount(AccountAt(l, call.account)).value, RequestAt(l, call.request).(status := Status.Expired)));
  }

  lemma FinalizePreserves(env: Crypto, l: Ledger, ctx: Context, call: Call)
    requires LedgerInv(env, l) && call.Finalize? && ExecFinalize(env, l, ctx, call).Ok?
    ensures var l' := ExecFinalize(env, l, ctx, call).value; LedgerInv(env, l') && Evolves(l, l')
  {
    FinalizeCloses(env, l, ctx, call);
    var l' := ExecFinalize(env, l, ctx, call).value;
    ClosePreserves(env, l, call.account, call.request, (l'[call.account].account, l'[call.request].request));
  }
}
