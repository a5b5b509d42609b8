/** What the client's decisions mean on a ledger that moves between its reads. */
module ClientProofs {
  import opened Types
  import opened Protocol
  import opened Ed25519
  import opened State
  import opened Coordinator
  import opened Invariant
  import opened Lifecycle
  import opened Runs
  import opened Client

  // ---- Torn reads ----

  /** Three ledgers of one run, in order. */
  ghost predicate Snapshots(env: Crypto, l1: Ledger, l2: Ledger, l3: Ledger) {
    && LedgerInv(env, l1) && LedgerInv(env, l2) && LedgerInv(env, l3)
    && Evolves(l1, l2) && Evolves(l2, l3)
  }

  /** A request that is no longer Pending has lost the lock; one that is has it. */
  lemma LockFollowsStatus(env: Crypto, l: Ledger, q: Pubkey)
    requires LedgerInv(env, l) && IsRequest(l, q)
    ensures IsAccount(l, RequestAt(l, q).confidentialAccount)
    ensures AccountAt(l, RequestAt(l, q).confidentialAccount).pendingRequest == q <==> RequestAt(l, q).status == Pending
  {
    assert RecordOk(env, l, q);
  }

  /** All checks but the lock comparison hold between records of different times. */
  lemma FixedPartsAgree(env: Crypto, l1: Ledger, l2: Ledger, l3: Ledger, q: Pubkey)
    requires Snapshots(env, l1, l2, l3) && IsRequest(l1, q)
    ensures var r := RequestAt(l1, q);
            && IsConfig(l2, r.config) && IsAccount(l3, r.confidentialAccount)
            && var c, a := ConfigAt(l2, r.config), AccountAt(l3, r.confidentialAccount);
            && r.mint == c.mint && a.config == r.config && a.mint == c.mint && r.requester == a.owner
            && r.operation == c.operation && r.paramsHash == c.paramsHash
            && r.config == ConfigPda(env, r.mint)
            && r.confidentialAccount == AccountPda(env, r.mint, a.owner)
            && q == RequestPda(env, r.confidentialAccount, r.requestNonce)
            && RequestDigest(env, RequestBindingOf(c, r, q)) == r.requestDigest
  {
    var r := RequestAt(l1, q);
    assert RecordOk(env, l1, q);
    assert RecordOk(env, l1, r.config) && RecordOk(env, l1, r.confidentialAccount);
    assert KeyEvolves(l1, l2, r.config);
    EvolvesTransitive(l1, l2, l3);
    assert KeyEvolves(l1, l3, r.confidentialAccount);
    BindingStable(ConfigAt(l1, r.config), ConfigAt(l2, r.config), r, r, q);
  }

  /** The lock comparison across time: it passes iff the request read as Pending is still Pending. */
  lemma LockAcrossTime(env: Crypto, l1: Ledger, l3: Ledger, q: Pubkey)
    requires LedgerInv(env, l1) && LedgerInv(env, l3) && Evolves(l1, l3) && IsRequest(l1, q)
    ensures IsRequest(l3, q) && IsAccount(l3, RequestAt(l1, q).confidentialAccount)
    ensures RequireLock(q, RequestAt(l1, q), AccountAt(l3, RequestAt(l1, q).confidentialAccount)).Fail?
       <==> RequestAt(l1, q).status == Pending && RequestAt(l3, q).status != Pending
  {
    assert KeyEvolves(l1, l3, q);
    LockFollowsStatus(env, l3, q);
    if RequestAt(l3, q).status == Pending {
      PendingIsLast(env, l3, RequestAt(l3, q).confidentialAccount, q);
    }
  }

  /** The client reconstructs the program's own binding, whatever it read in between. */
  lemma VerifyReduced(env: Crypto, l1: Ledger, l2: Ledger, l3: Ledger, q: Pubkey)
    requires Snapshots(env, l1, l2, l3) && IsRequest(l1, q)
    ensures var r := RequestAt(l1, q);
            && IsConfig(l2, r.config) && IsAccount(l3, r.confidentialAccount)
            && var c, a := ConfigAt(l2, r.config), AccountAt(l3, r.confidentialAccount);
            var lock := RequireLock(q, r, a);
            FetchAndVerifyRequest(env, l1, l2, l3, q)
            == if lock.Fail? then Err(lock.error)
               else Ok(VerifiedRequest(r.config, c, r.confidentialAccount, a, q, r, RequestBindingOf(c, r, q)))
  {
    FixedPartsAgree(env, l1, l2, l3, q);
    var r := RequestAt(l1, q);
    var c, a := ConfigAt(l2, r.config), AccountAt(l3, r.confidentialAccount);
    assert ReconstructRequestBinding(c, r.config, r, r.confidentialAccount, q) == RequestBindingOf(c, r, q);
    assert VerifyRequestAccounts(env, q, r, r.config, c, r.confidentialAccount, a)
           == if RequireLock(q, r, a).Fail? then Err(RequireLock(q, r, a).error) else Ok(RequestBindingOf(c, r, q));
  }

  lemma SnapshotsOfRun(env: Crypto, w1: World, gap: seq<Action>, gap': seq<Action>)
    requires Reachable(env, w1)
    ensures var w2 := Run(env, w1, gap);
            var w3 := Run(env, w2, gap');
            Snapshots(env, w1.ledger, w2.ledger, w3.ledger) && Reachable(env, w2) && Reachable(env, w3)
  {
    ReachableInv(env, w1);
    RunKeeps(env, w1, gap);
    RunKeeps(env, Run(env, w1, gap), gap');
    ReachableContinues(env, w1, gap);
    ReachableContinues(env, Run(env, w1, gap), gap');
  }

  /**
   * Torn-read exactness. Request, config and account are read at three successive points of any run,
   * with anything happening in between. Verification fails exactly when the request was Pending at the
   * first read and no longer at the last; when it succeeds, the binding is the program's own for that
   * request, at the last read and ever after.
   */
  lemma TornReadExact(env: Crypto, w1: World, gap: seq<Action>, gap': seq<Action>, future: seq<Action>, q: Pubkey)
    requires Reachable(env, w1) && IsRequest(w1.ledger, q)
    ensures var w2 := Run(env, w1, gap);
            var w3 := Run(env, w2, gap');
            var w4 := Run(env, w3, future);
            var v := FetchAndVerifyRequest(env, w1.ledger, w2.ledger, w3.ledger, q);
            && IsRequest(w3.ledger, q) && IsRequest(w4.ledger, q)
            && var r4 := RequestAt(w4.ledger, q);
            && IsConfig(w4.ledger, r4.config)
            && (v.Err? <==> RequestAt(w1.ledger, q).status == Pending && RequestAt(w3.ledger, q).status != Pending)
            && (v.Err? ==> v == Err(PendingPointerMismatch))
            && (v.Ok? ==> v.value.binding == RequestBindingOf(ConfigAt(w4.ledger, r4.config), r4, q))
  {
    var w2 := Run(env, w1, gap);
    var w3 := Run(env, w2, gap');
    var w4 := Run(env, w3, future);
    SnapshotsOfRun(env, w1, gap, gap');
    EvolvesTransitive(w1.ledger, w2.ledger, w3.ledger);
    LockAcrossTime(env, w1.ledger, w3.ledger, q);
    LockFollowsStatus(env, w3.ledger, q);
    VerifyReduced(env, w1.ledger, w2.ledger, w3.ledger, q);
    ReachableInv(env, w3);
    RunKeeps(env, w3, future);
    BindingForever(env, w1.ledger, w2.ledger, w3.ledger, w4.ledger, q);
    assert KeyEvolves(w1.ledger, w3.ledger, q);
  }

  lemma BindingForever(env: Crypto, l1: Ledger, l2: Ledger, l3: Ledger, l4: Ledger, q: Pubkey)
    requires Snapshots(env, l1, l2, l3) && Evolves(l3, l4) && IsRequest(l1, q)
    ensures IsRequest(l4, q) && IsConfig(l4, RequestAt(l4, q).config) && IsConfig(l2, RequestAt(l1, q).config)
    ensures RequestBindingOf(ConfigAt(l2, RequestAt(l1, q).config), RequestAt(l1, q), q)
         == RequestBindingOf(ConfigAt(l4, RequestAt(l4, q).config), RequestAt(l4, q), q)
  {
    var ck := RequestAt(l1, q).config;
    assert RecordOk(env, l1, q);
    EvolvesTransitive(l2, l3, l4);
    EvolvesTransitive(l1, l2, l4);
    assert KeyEvolves(l1, l4, q) && KeyEvolves(l1, l2, ck) && KeyEvolves(l2, l4, ck);
    BindingStable(ConfigAt(l2, ck), ConfigAt(l4, ck), RequestAt(l1, q), RequestAt(l4, q), q);
  }

  // ---- What the checks accept on arbitrary records ----

  /** A ledger of just the three records the client has read. */
  function ThreeRecords(configAddress: Pubkey, c: Config, accountAddress: Pubkey, a: ConfidentialAccount,
                        requestAddress: Pubkey, r: Request): Ledger
  {
    map[configAddress := ConfigRecord(c), accountAddress := AccountRecord(a), requestAddress := RequestRecord(r)]
  }

  /**
   * On arbitrary records, however they were served, the client accepts exactly those that meet the
   * program's own account constraints for finalize, agree on the fields no constraint compares, hold the
   * lock while Pending, and match the stored digest; the binding is then the program's own.
   */
  lemma AcceptedRecordsExact(env: Crypto, configAddress: Pubkey, c: Config, accountAddress: Pubkey, a: ConfidentialAccount,
                             requestAddress: Pubkey, r: Request, args: FinalizeArgs)
    requires configAddress != accountAddress && configAddress != requestAddress && accountAddress != requestAddress
    ensures var v := VerifyRequestAccounts(env, requestAddress, r, configAddress, c, accountAddress, a);
            var l := ThreeRecords(configAddress, c, accountAddress, a, requestAddress, r);
            && (v.Ok? <==>
                  && FinalizeConstraints(env, l, Finalize(configAddress, accountAddress, requestAddress, INSTRUCTIONS_ID, args)).Ok?
                  && r.mint == c.mint && a.mint == c.mint && r.requester == a.owner
                  && r.operation == c.operation && r.paramsHash == c.paramsHash
                  && (r.status == Pending ==>
                        && RequirePendingLock(a, accountAddress, r, requestAddress).Ok?
                        && a.requestNonce == r.requestNonce && a.stateVersion == r.stateVersion)
                  && r.requestDigest == RequestDigest(env, RequestBindingOf(c, r, requestAddress)))
            && (v.Ok? ==> v.value == RequestBindingOf(c, r, requestAddress))
  {
    var l := ThreeRecords(configAddress, c, accountAddress, a, requestAddress, r);
    assert ConfigAt(l, configAddress) == c && AccountAt(l, accountAddress) == a && RequestAt(l, requestAddress) == r;
    if r.config == configAddress && r.confidentialAccount == accountAddress {
      assert ReconstructRequestBinding(c, configAddress, r, accountAddress, requestAddress) == RequestBindingOf(c, r, requestAddress);
    }
  }

  /** The stored digest pins the accepted binding: two accepted reads with one digest agree, or exhibit a collision. */
  lemma DigestPinsBinding(env: Crypto, v: VerifiedRequest, v': VerifiedRequest)
    requires VerifyRequestAccounts(env, v.requestAddress, v.request, v.configAddress, v.config, v.accountAddress, v.account) == Ok(v.binding)
    requires VerifyRequestAccounts(env, v'.requestAddress, v'.request, v'.configAddress, v'.config, v'.accountAddress, v'.account)
          == Ok(v'.binding)
    requires v.request.requestDigest == v'.request.requestDigest
    ensures v.binding == v'.binding || Collides(env, EncodeRequest(v.binding), EncodeRequest(v'.binding))
  {
    RequestDigestBinds(env, v.binding, v'.binding);
  }

  /** The file a worker with the given key writes for a result. */
  function ResultFileOf(env: Crypto, b: ResultBinding, signature: Bytes64, operator: Pubkey): ParsedResult {
    ParsedResult(b.resultHash, b.requestDigest, ResultDigest(env, b), signature, operator.bytes, b.resultType, b.circuitId)
  }

  /**
   * Finalize is refused locally unless the result file is exactly the one the current operator writes for
   * a Boolean result of the config's circuit on this Pending request, with a signature that verifies;
   * that result is then the one returned.
   */
  lemma ConsistencyExact(env: Crypto, v: VerifiedRequest, cached: Option<RequestBinding>, parsed: ParsedResult, b: ResultBinding)
    requires v.request.requestDigest == RequestDigest(env, v.binding)
    ensures ValidateFinalizeConsistency(env, v, cached, parsed) == Ok(b) <==>
              && v.request.status == Pending
              && (cached.None? || cached.value == v.binding)
              && b.request == v.binding && b.requestDigest == v.request.requestDigest
              && b.resultType == RESULT_TYPE_FHE_BOOL && b.circuitId == v.config.circuitId
              && parsed == ResultFileOf(env, b, parsed.signature, v.config.operator)
              && env.ed25519Verify(v.config.operator.bytes, EncodeResult(b), parsed.signature)
  {
  }

  // ---- The submit gate ----

  /** When the gate lets a submit through, and what it then sends. */
  lemma SubmitGateAccepts(env: Crypto, l: Ledger, configAddress: Pubkey, accountAddress: Pubkey, owner: Pubkey, amountHash: Bytes32)
    ensures var gate := SubmitGate(env, l, configAddress, accountAddress, owner, amountHash);
            && (gate.Ok? <==>
                  && IsConfig(l, configAddress) && IsAccount(l, accountAddress)
                  && var c, a := ConfigAt(l, configAddress), AccountAt(l, accountAddress);
                  && !c.paused && a.config == configAddress && a.mint == c.mint && a.owner == owner
                  && a.keyVersion == c.keyVersion && !a.HasPending() && a.requestNonce < U64_MAX)
            && (gate.Ok? ==>
                  var a := AccountAt(l, accountAddress);
                  gate.value == Submit(owner, configAddress, accountAddress, RequestPda(env, accountAddress, a.requestNonce + 1),
                                       SubmitArgs(amountHash, a.stateVersion, a.requestNonce + 1)))
  {
  }

  /** On an atomic snapshot that passes the gate, the submit succeeds iff three things the gate does not check hold. */
  lemma SubmitGateExact(env: Crypto, l: Ledger, ctx: Context, configAddress: Pubkey, accountAddress: Pubkey, owner: Pubkey, amountHash: Bytes32)
    requires LedgerInv(env, l)
    requires SubmitGate(env, l, configAddress, accountAddress, owner, amountHash).Ok?
    ensures var call := SubmitGate(env, l, configAddress, accountAddress, owner, amountHash).value;
            && IsConfig(l, configAddress) && call.Submit?
            && (Exec(env, l, ctx, call).Ok? <==>
                  && !IsZeroHash(amountHash)
                  && ctx.slot + ConfigAt(l, configAddress).maxRequestLifetimeSlots <= U64_MAX
                  && call.request !in l)
            && call.submit.expectedStateVersion == call.submit.expectedNonce - 1
  {
    assert RecordOk(env, l, configAddress) && RecordOk(env, l, accountAddress);
    var call := SubmitGate(env, l, configAddress, accountAddress, owner, amountHash).value;
    if call.request !in l {
      assert SubmitConstraints(env, l, call) == Ok((ConfigAt(l, configAddress), AccountAt(l, accountAddress)));
      SubmitSucceedsIff(env, l, ctx, call);
    }
  }

  // ---- A prepared finalize lands ----

  lemma ProgramsDiffer()
    ensures PROGRAM_ID != ED25519_PROGRAM_ID
  {
    assert PROGRAM_ID.bytes[0] != ED25519_PROGRAM_ID.bytes[0];
  }

  /** What an accepted preparation establishes about the request and the config it read. */
  lemma PreparedFacts(env: Crypto, l1: Ledger, l2: Ledger, l3: Ledger, q: Pubkey, cached: Option<RequestBinding>, parsed: ParsedResult)
    requires Snapshots(env, l1, l2, l3) && PrepareFinalize(env, l1, l2, l3, q, cached, parsed).Ok?
    ensures var p := PrepareFinalize(env, l1, l2, l3, q, cached, parsed).value;
            && IsRequest(l1, q)
            && var r := RequestAt(l1, q);
            && IsConfig(l2, r.config) && IsAccount(l3, r.confidentialAccount)
            && var c := ConfigAt(l2, r.config);
            && p.requestAddress == q && p.configAddress == r.config && p.accountAddress == r.confidentialAccount
            && r.status == Pending && !c.paused
            && p.priorStateVersion == r.stateVersion
            && p.parsed == parsed && p.resultHash == parsed.resultHash && p.resultDigest == ResultDigest(env, p.binding)
            && parsed.operator == c.operator.bytes
            && p.binding == ResultBindingOf(c, r, q, FinalizeArgs(parsed.resultHash, RESULT_TYPE_FHE_BOOL, c.circuitId))
            && env.ed25519Verify(parsed.operator, EncodeResult(p.binding), parsed.signature)
  {
    VerifyReduced(env, l1, l2, l3, q);
    FixedPartsAgree(env, l1, l2, l3, q);
  }

  /**
   * Preparation from three reads of one run accepts exactly when the request is Pending at the first and
   * still at the last, the config read is not paused, the cache agrees, and the result file is the one the
   * config's operator writes for a Boolean policy result of this request, with a verifying signature.
   */
  lemma PreparedExact(env: Crypto, l1: Ledger, l2: Ledger, l3: Ledger, q: Pubkey, cached: Option<RequestBinding>, parsed: ParsedResult)
    requires Snapshots(env, l1, l2, l3) && IsRequest(l1, q)
    ensures IsConfig(l2, RequestAt(l1, q).config) && IsRequest(l3, q)
    ensures var c, r := ConfigAt(l2, RequestAt(l1, q).config), RequestAt(l1, q);
            var b := ResultBindingOf(c, r, q, FinalizeArgs(parsed.resultHash, 1, 1));
            PrepareFinalize(env, l1, l2, l3, q, cached, parsed).Ok? <==>
              && r.status == Pending && RequestAt(l3, q).status == Pending && !c.paused
              && (cached.None? || cached.value == b.request)
              && parsed == ResultFileOf(env, b, parsed.signature, c.operator)
              && env.ed25519Verify(c.operator.bytes, EncodeResult(b), parsed.signature)
  {
    VerifyReduced(env, l1, l2, l3, q);
    FixedPartsAgree(env, l1, l2, l3, q);
    EvolvesTransitive(l1, l2, l3);
    LockAcrossTime(env, l1, l3, q);
    var c, r := ConfigAt(l2, RequestAt(l1, q).config), RequestAt(l1, q);
    assert RecordOk(env, l2, r.config);
    var fetched := FetchAndVerifyRequest(env, l1, l2, l3, q);
    if fetched.Ok? {
      var b := ResultBindingOf(c, r, q, FinalizeArgs(parsed.resultHash, 1, 1));
      ConsistencyExact(env, fetched.value, cached, parsed, b);
      var checked := ValidateFinalizeConsistency(env, fetched.value, cached, parsed);
      if checked.Ok? {
        ConsistencyExact(env, fetched.value, cached, parsed, checked.value);
      }
    }
  }

  /** The built pair passes the precompile when the client's own signature check passed. */
  lemma PairPassesPrecompile(env: Crypto, p: PreparedFinalize, data: Bytes)
    requires env.ed25519Verify(p.parsed.operator, EncodeResult(p.binding), p.parsed.signature)
    ensures PrecompilesAccept(env, FinalizeInstructions(p, data))
    ensures VerifyOperatorMessage(FinalizeInstructions(p, data), 1, Pubkey(p.parsed.operator), EncodeResult(p.binding)).Ok?
  {
    var ixs := FinalizeInstructions(p, data);
    ResultRoundTrip(p.binding);
    BuiltAccepted(env, ixs, EncodeResult(p.binding), p.parsed.signature, p.parsed.operator);
    ProgramsDiffer();
    assert ixs[1].programId == PROGRAM_ID;
    BuiltPassesIntrospection(ixs, 0, Pubkey(p.parsed.operator), EncodeResult(p.binding), p.parsed.signature);
  }

  /** A transaction whose one call is a finalize, at any position, commits exactly when that call succeeds there. */
  lemma SingleFinalizeCommits(env: Crypto, w: World, ixs: Instructions, top: u16, call: Call)
    requires PrecompilesAccept(env, ixs) && call.Finalize?
    ensures Commits(env, w, Transaction(ixs, [Invocation(top, call)])) <==> ExecFinalize(env, w.ledger, Context(w.slot, ixs, top), call).Ok?
  {
    var tx := Transaction(ixs, [Invocation(top, call)]);
    assert InvokeUpTo(env, w, tx, 0) == Ok(w);
    assert InvokeUpTo(env, w, tx, 1) == Invoke(env, w, ixs, Invocation(top, call));
  }

  /** The account constraints of the prepared call hold wherever the invariant does. */
  lemma PreparedConstraints(env: Crypto, l: Ledger, q: Pubkey, call: Call)
    requires LedgerInv(env, l) && IsRequest(l, q)
    requires call.Finalize? && call.request == q && call.config == RequestAt(l, q).config
    requires call.account == RequestAt(l, q).confidentialAccount && call.instructions == INSTRUCTIONS_ID
    ensures IsConfig(l, call.config) && IsAccount(l, call.account)
    ensures FinalizeConstraints(env, l, call) == Ok((ConfigAt(l, call.config), AccountAt(l, call.account), RequestAt(l, q)))
  {
    assert RecordOk(env, l, q);
    assert RecordOk(env, l, call.config) && RecordOk(env, l, call.account);
  }

  /** `l` has the request at `q` as `l1` had it, and its config as `l2` had it. */
  predicate SameRecords(l1: Ledger, l2: Ledger, l: Ledger, q: Pubkey) {
    && IsRequest(l1, q) && q in l && l[q] == l1[q]
    && var ck := RequestAt(l1, q).config;
    && IsConfig(l2, ck) && ck in l && l[ck] == l2[ck]
  }

  /** The four conditions a finalize still needs when the client has done all of its checks. */
  predicate Residual(l: Ledger, q: Pubkey, slot: u64, resultHash: Bytes32)
    requires IsRequest(l, q) && IsConfig(l, RequestAt(l, q).config)
  {
    var r := RequestAt(l, q);
    var c := ConfigAt(l, r.config);
    && r.operatorEpoch == c.operatorEpoch
    && r.keyVersion == c.keyVersion
    && !IsZeroHash(resultHash)
    && slot < r.expirySlot
  }

  /**
   * Preparation reads the request, its config and its account at three points of a run. If it accepts,
   * and the request and the config it read are still there when the built transaction executes, then the
   * transaction commits exactly when the four conditions the client leaves unchecked hold.
   */
  lemma PreparedLands(env: Crypto, w1: World, gap: seq<Action>, gap': seq<Action>, q: Pubkey, cached: Option<RequestBinding>,
                      parsed: ParsedResult, w: World, data: Bytes)
    requires Reachable(env, w1) && Reachable(env, w)
    requires var w2 := Run(env, w1, gap);
             var w3 := Run(env, w2, gap');
             && SameRecords(w1.ledger, w2.ledger, w.ledger, q)
             && PrepareFinalize(env, w1.ledger, w2.ledger, w3.ledger, q, cached, parsed).Ok?
    ensures var w2 := Run(env, w1, gap);
            var w3 := Run(env, w2, gap');
            var p := PrepareFinalize(env, w1.ledger, w2.ledger, w3.ledger, q, cached, parsed).value;
            && InstructionsForPayer(p, data) == Ok(FinalizeInstructions(p, data))
            && (Commits(env, w, FinalizeTransaction(p, data)) <==> Residual(w.ledger, q, w.slot, parsed.resultHash))
  {
    var w2 := Run(env, w1, gap);
    var w3 := Run(env, w2, gap');
    SnapshotsOfRun(env, w1, gap, gap');
    ReachableInv(env, w);
    PreparedFacts(env, w1.ledger, w2.ledger, w3.ledger, q, cached, parsed);
    PreparedLandsOn(env, w, PrepareFinalize(env, w1.ledger, w2.ledger, w3.ledger, q, cached, parsed).value, q, data);
  }

  /** The prepared data match the live records of `q`. */
  predicate Matches(env: Crypto, l: Ledger, p: PreparedFinalize, q: Pubkey)
    requires IsRequest(l, q) && IsConfig(l, RequestAt(l, q).config)
  {
    var r := RequestAt(l, q);
    var c := ConfigAt(l, r.config);
    && p.requestAddress == q && p.configAddress == r.config && p.accountAddress == r.confidentialAccount
    && r.status == Pending && !c.paused
    && p.parsed.operator == c.operator.bytes
    && p.binding == ResultBindingOf(c, r, q, FinalizeArgs(p.parsed.resultHash, RESULT_TYPE_FHE_BOOL, c.circuitId))
    && env.ed25519Verify(p.parsed.operator, EncodeResult(p.binding), p.parsed.signature)
  }

  lemma PreparedLandsOn(env: Crypto, w: World, p: PreparedFinalize, q: Pubkey, data: Bytes)
    requires LedgerInv(env, w.ledger) && IsRequest(w.ledger, q) && IsConfig(w.ledger, RequestAt(w.ledger, q).config)
    requires Matches(env, w.ledger, p, q)
    ensures InstructionsForPayer(p, data) == Ok(FinalizeInstructions(p, data))
    ensures Commits(env, w, FinalizeTransaction(p, data)) <==> Residual(w.ledger, q, w.slot, p.parsed.resultHash)
  {
    PairPassesPrecompile(env, p, data);
    PairPassesAdjacency(p, data);
    var ixs := FinalizeInstructions(p, data);
    PreparedCallSucceeds(env, w.ledger, Context(w.slot, ixs, 1), p, q);
    SingleFinalizeCommits(env, w, ixs, 1, FinalizeCall(p));
  }

  lemma EvolvesReflexive(l: Ledger)
    ensures Evolves(l, l)
  {
  }

  lemma PreparedCallSucceeds(env: Crypto, l: Ledger, ctx: Context, p: PreparedFinalize, q: Pubkey)
    requires LedgerInv(env, l) && IsRequest(l, q) && IsConfig(l, RequestAt(l, q).config) && Matches(env, l, p, q)
    requires VerifyOperatorMessage(ctx.ixs, ctx.current, Pubkey(p.parsed.operator), EncodeResult(p.binding)).Ok?
    ensures ExecFinalize(env, l, ctx, FinalizeCall(p)).Ok? <==> Residual(l, q, ctx.slot, p.parsed.resultHash)
  {
    var call := FinalizeCall(p);
    PreparedConstraints(env, l, q, call);
    FinalizeReduced(env, l, ctx, call);
  }

  lemma PairPassesAdjacency(p: PreparedFinalize, data: Bytes)
    ensures InstructionsForPayer(p, data) == Ok(FinalizeInstructions(p, data))
  {
    var ids := ProgramIds(FinalizeInstructions(p, data));
    ProgramsDiffer();
    assert ids == [ED25519_PROGRAM_ID, PROGRAM_ID];
    assert ids[1..] == [PROGRAM_ID];
    assert Positions([PROGRAM_ID], PROGRAM_ID, 1) == [1] + Positions([], PROGRAM_ID, 2);
    assert Positions(ids, PROGRAM_ID, 0) == [1];
  }

  // ---- The check after finalize ----

  /** On arbitrary fetched state: Finalized with the prepared hash and digest, idle, and exactly one version on. */
  lemma AuthoritativeExact(post: VerifiedRequest, p: PreparedFinalize)
    ensures VerifyAuthoritativeFinalized(post, p).Ok? <==>
              && post.request.status == Finalized
              && post.request.resultHash == p.resultHash && post.request.resultDigest == p.resultDigest
              && !post.account.HasPending() && post.account.stateVersion == p.priorStateVersion + 1
  {
  }

  /** The account has moved past the request's version and is idle exactly when no later submit happened. */
  lemma IdleAtNext(env: Crypto, l4: Ledger, l6: Ledger, q: Pubkey)
    requires LedgerInv(env, l4) && LedgerInv(env, l6) && Evolves(l4, l6)
    requires IsRequest(l4, q) && RequestAt(l4, q).status == Finalized
    ensures IsAccount(l6, RequestAt(l4, q).confidentialAccount)
    ensures var r := RequestAt(l4, q);
            var a := AccountAt(l6, r.confidentialAccount);
            (a.pendingRequest == DEFAULT_PUBKEY && a.stateVersion == r.stateVersion + 1) <==> a.requestNonce == r.requestNonce
  {
    var r := RequestAt(l4, q);
    assert KeyEvolves(l4, l6, q);
    assert RecordOk(env, l6, q);
    var ak := r.confidentialAccount;
    assert RecordOk(env, l6, ak);
    var a := AccountAt(l6, ak);
    assert a.HasPending() && a.requestNonce == r.requestNonce ==> a.pendingRequest == q;
  }

  /** A finalized request with the prepared hash carries the prepared digest too. */
  lemma DigestFollows(env: Crypto, l1: Ledger, l2: Ledger, l4: Ledger, q: Pubkey, p: PreparedFinalize)
    requires LedgerInv(env, l1) && LedgerInv(env, l4) && Evolves(l1, l2) && Evolves(l2, l4) && IsRequest(l1, q)
    requires IsConfig(l2, RequestAt(l1, q).config) && IsRequest(l4, q) && RequestAt(l4, q).status == Finalized
    requires var c, r := ConfigAt(l2, RequestAt(l1, q).config), RequestAt(l1, q);
             p.binding == ResultBindingOf(c, r, q, FinalizeArgs(p.resultHash, RESULT_TYPE_FHE_BOOL, c.circuitId))
    requires p.resultDigest == ResultDigest(env, p.binding)
    requires RequestAt(l4, q).resultHash == p.resultHash
    ensures RequestAt(l4, q).resultDigest == p.resultDigest
    ensures IsConfig(l4, RequestAt(l4, q).config)
    ensures StoredBinding(ConfigAt(l4, RequestAt(l4, q).config), RequestAt(l4, q), q) == p.binding
  {
    var r, r4 := RequestAt(l1, q), RequestAt(l4, q);
    EvolvesTransitive(l1, l2, l4);
    assert KeyEvolves(l1, l4, q) && KeyEvolves(l2, l4, r.config);
    assert RecordOk(env, l4, q);
    BindingStable(ConfigAt(l2, r.config), ConfigAt(l4, r.config), r, r4, q);
  }

  /**
   * The post-finalize check is exact. Preparation and re-fetch each take three torn reads of one run.
   * Acceptance holds exactly when the request is Finalized with the prepared hash at the re-fetch and
   * no later submit has happened on the account by the last read; it then implies that the prepared
   * result itself is what the chain stores.
   */
  lemma PostCheckExact(env: Crypto, w1: World, a1: seq<Action>, a2: seq<Action>, a3: seq<Action>, a4: seq<Action>, a5: seq<Action>,
                       q: Pubkey, cached: Option<RequestBinding>, parsed: ParsedResult)
    requires Reachable(env, w1)
    requires var w2 := Run(env, w1, a1);
             var w3 := Run(env, w2, a2);
             PrepareFinalize(env, w1.ledger, w2.ledger, w3.ledger, q, cached, parsed).Ok?
    ensures var w2 := Run(env, w1, a1);
            var w3 := Run(env, w2, a2);
            var w4 := Run(env, w3, a3);
            var w5 := Run(env, w4, a4);
            var w6 := Run(env, w5, a5);
            var p := PrepareFinalize(env, w1.ledger, w2.ledger, w3.ledger, q, cached, parsed).value;
            var accepted := RefetchAndVerifyFinalized(env, w4.ledger, w5.ledger, w6.ledger, p).Ok?;
            && IsRequest(w4.ledger, q)
            && var r := RequestAt(w4.ledger, q);
            && IsAccount(w6.ledger, r.confidentialAccount) && IsConfig(w4.ledger, r.config)
            && (accepted <==>
                  && r.status == Finalized
                  && r.resultHash == p.resultHash
                  && AccountAt(w6.ledger, r.confidentialAccount).requestNonce == r.requestNonce)
            && (accepted ==> StoredBinding(ConfigAt(w4.ledger, r.config), r, q) == p.binding)
  {
    var w2 := Run(env, w1, a1);
    var w3 := Run(env, w2, a2);
    var w4 := Run(env, w3, a3);
    var w5 := Run(env, w4, a4);
    var w6 := Run(env, w5, a5);
    SnapshotsOfRun(env, w1, a1, a2);
    SnapshotsOfRun(env, w3, a3, a4);
    SnapshotsOfRun(env, w4, a4, a5);
    PostCheckOnLedgers(env, w1.ledger, w2.ledger, w3.ledger, w4.ledger, w5.ledger, w6.ledger, q, cached, parsed);
  }

  lemma PostCheckOnLedgers(env: Crypto, l1: Ledger, l2: Ledger, l3: Ledger, l4: Ledger, l5: Ledger, l6: Ledger,
                           q: Pubkey, cached: Option<RequestBinding>, parsed: ParsedResult)
    requires Snapshots(env, l1, l2, l3) && Snapshots(env, l4, l5, l6) && Evolves(l3, l4)
    requires PrepareFinalize(env, l1, l2, l3, q, cached, parsed).Ok?
    ensures var p := PrepareFinalize(env, l1, l2, l3, q, cached, parsed).value;
            var accepted := RefetchAndVerifyFinalized(env, l4, l5, l6, p).Ok?;
            && IsRequest(l4, q)
            && var r := RequestAt(l4, q);
            && IsAccount(l6, r.confidentialAccount) && IsConfig(l4, r.config)
            && (accepted <==>
                  && r.status == Finalized
                  && r.resultHash == p.resultHash
                  && AccountAt(l6, r.confidentialAccount).requestNonce == r.requestNonce)
            && (accepted ==> StoredBinding(ConfigAt(l4, r.config), r, q) == p.binding)
  {
    var p := PrepareFinalize(env, l1, l2, l3, q, cached, parsed).value;
    PreparedFacts(env, l1, l2, l3, q, cached, parsed);
    EvolvesTransitive(l2, l3, l4);
    EvolvesTransitive(l1, l2, l4);
    EvolvesTransitive(l4, l5, l6);
    assert KeyEvolves(l1, l4, q);
    VerifyReduced(env, l4, l5, l6, q);
    LockFollowsStatus(env, l4, q);
    assert RecordOk(env, l4, q);
    var r := RequestAt(l4, q);
    if r.status == Finalized {
      IdleAtNext(env, l4, l6, q);
      if r.resultHash == p.resultHash {
        DigestFollows(env, l1, l2, l4, q, p);
      }
    }
  }
}
