/** The local demo's four transactions, in order: every one commits, and the request ends Finalized. */
module Demo {
  import opened Types
  import opened Protocol
  import opened Ed25519
  import opened State
  import opened Coordinator
  import opened Invariant
  import opened Lifecycle
  import opened Runs
  import opened Client
  import opened ClientProofs

  const DEMO_LIFETIME: u64 := 1000

  /** The keys, hashes and signature a demo run starts from. */
  datatype Setup = Setup(
    authority: Pubkey,
    mint: Pubkey,
    owner: Pubkey,
    operator: Pubkey,
    domainId: Bytes32,
    paramsHash: Bytes32,
    balanceHash: Bytes32,
    amountHash: Bytes32,
    limitHash: Bytes32,
    resultHash: Bytes32,
    signature: Bytes64)

  function ConfigKey(env: Crypto, s: Setup): Pubkey {
    ConfigPda(env, s.mint)
  }

  function AccountKey(env: Crypto, s: Setup): Pubkey {
    AccountPda(env, s.mint, s.owner)
  }

  function RequestKey(env: Crypto, s: Setup): Pubkey {
    RequestPda(env, AccountKey(env, s), 1)
  }

  function DemoConfig(s: Setup): Config {
    Config(s.authority, s.mint, s.domainId, s.operator, 1, 1, s.paramsHash, OPERATION_POLICY_CHECK, CIRCUIT_POLICY_V1,
           PROTOCOL_VERSION, DEMO_LIFETIME, false)
  }

  function DemoAccount(env: Crypto, s: Setup): ConfidentialAccount {
    ConfidentialAccount(ConfigKey(env, s), s.mint, s.owner, s.balanceHash, s.limitHash, 0, 0, DEFAULT_PUBKEY, 1)
  }

  function DemoRequest(env: Crypto, s: Setup, slot: u64): Request
    requires slot + DEMO_LIFETIME <= U64_MAX
  {
    OpenedRequest(env, DemoConfig(s), ConfigKey(env, s), DemoAccount(env, s), AccountKey(env, s), RequestKey(env, s), slot, s.amountHash)
  }

  /** The binding the worker signs in the demo. */
  function DemoBinding(env: Crypto, s: Setup, slot: u64): ResultBinding
    requires slot + DEMO_LIFETIME <= U64_MAX
  {
    ResultBindingOf(DemoConfig(s), DemoRequest(env, s, slot), RequestKey(env, s),
                    FinalizeArgs(s.resultHash, RESULT_TYPE_FHE_BOOL, CIRCUIT_POLICY_V1))
  }

  /** Real keys and hashes, three different derived addresses, and a signature that verifies. */
  predicate Sensible(env: Crypto, s: Setup, slot: u64) {
    && s.operator != DEFAULT_PUBKEY
    && !IsZeroHash(s.paramsHash) && !IsZeroHash(s.balanceHash) && !IsZeroHash(s.amountHash)
    && !IsZeroHash(s.limitHash) && !IsZeroHash(s.resultHash)
    && ConfigKey(env, s) != AccountKey(env, s) && ConfigKey(env, s) != RequestKey(env, s) && AccountKey(env, s) != RequestKey(env, s)
    && slot + DEMO_LIFETIME <= U64_MAX
    && env.ed25519Verify(s.operator.bytes, EncodeResult(DemoBinding(env, s, slot)), s.signature)
  }

  function InitializeCall(env: Crypto, s: Setup): Call {
    InitializeConfig(s.authority, s.mint, ConfigKey(env, s), InitializeConfigArgs(s.domainId, s.operator, 1, s.paramsHash, DEMO_LIFETIME))
  }

  function CreateCall(env: Crypto, s: Setup): Call {
    CreateAccount(s.owner, ConfigKey(env, s), AccountKey(env, s), s.balanceHash, s.limitHash)
  }

  function SubmitCall(env: Crypto, s: Setup): Call {
    Submit(s.owner, ConfigKey(env, s), AccountKey(env, s), RequestKey(env, s), SubmitArgs(s.amountHash, 0, 1))
  }

  function DemoFinalizeCall(env: Crypto, s: Setup): Call {
    Finalize(ConfigKey(env, s), AccountKey(env, s), RequestKey(env, s), INSTRUCTIONS_ID,
             FinalizeArgs(s.resultHash, RESULT_TYPE_FHE_BOOL, CIRCUIT_POLICY_V1))
  }

  /** A transaction of one coordinator instruction; `data` is its serialized call. */
  function Alone(call: Call, data: Bytes): Action {
    Send(Transaction([Instruction(PROGRAM_ID, data)], [Invocation(0, call)]))
  }

  /** The verify instruction and the finalize behind it. */
  function Pair(env: Crypto, s: Setup, slot: u64, data: Bytes): Action
    requires slot + DEMO_LIFETIME <= U64_MAX
  {
    Send(Transaction([NewVerifyInstruction(EncodeResult(DemoBinding(env, s, slot)), s.signature, s.operator.bytes),
                      Instruction(PROGRAM_ID, data)],
                     [Invocation(1, DemoFinalizeCall(env, s))]))
  }

  function DemoRun(env: Crypto, s: Setup, slot: u64, data: Bytes): seq<Action>
    requires slot + DEMO_LIFETIME <= U64_MAX
  {
    [Alone(InitializeCall(env, s), data), Alone(CreateCall(env, s), data), Alone(SubmitCall(env, s), data), Pair(env, s, slot, data)]
  }

  /** A lone coordinator call that succeeds is what the transaction does. */
  lemma AloneRuns(env: Crypto, w: World, call: Call, data: Bytes)
    requires Exec(env, w.ledger, Context(w.slot, [Instruction(PROGRAM_ID, data)], 0), call).Ok?
    ensures Step(env, w, Alone(call, data)).slot == w.slot
    ensures Step(env, w, Alone(call, data)).ledger == Exec(env, w.ledger, Context(w.slot, [Instruction(PROGRAM_ID, data)], 0), call).value
  {
    ProgramsDiffer();
    var tx := Transaction([Instruction(PROGRAM_ID, data)], [Invocation(0, call)]);
    assert PrecompilesAccept(env, tx.ixs);
    assert InvokeUpTo(env, w, tx, 0) == Ok(w);
    assert InvokeUpTo(env, w, tx, 1) == Invoke(env, w, tx.ixs, tx.invocations[0]);
  }

  function Ledger1(env: Crypto, s: Setup): Ledger {
    map[ConfigKey(env, s) := ConfigRecord(DemoConfig(s))]
  }

  function Ledger2(env: Crypto, s: Setup): Ledger {
    Ledger1(env, s)[AccountKey(env, s) := AccountRecord(DemoAccount(env, s))]
  }

  function Ledger3(env: Crypto, s: Setup, slot: u64): Ledger
    requires slot + DEMO_LIFETIME <= U64_MAX
  {
    Store(Ledger2(env, s), AccountKey(env, s), RequestKey(env, s),
          (OpenedAccount(DemoAccount(env, s), RequestKey(env, s)), DemoRequest(env, s, slot)))
  }

  /** The account is idle at version 1 and the request carries exactly the signed result. */
  function Ledger4(env: Crypto, s: Setup, slot: u64): Ledger
    requires slot + DEMO_LIFETIME <= U64_MAX
  {
    Store(Ledger3(env, s, slot), AccountKey(env, s), RequestKey(env, s),
          (DemoAccount(env, s).(requestNonce := 1, stateVersion := 1),
           DemoRequest(env, s, slot).(status := Finalized, resultHash := s.resultHash,
                                      resultDigest := ResultDigest(env, DemoBinding(env, s, slot)))))
  }

  lemma InitializeRuns(env: Crypto, s: Setup, ctx: Context)
    requires Sensible(env, s, ctx.slot)
    ensures Exec(env, map[], ctx, InitializeCall(env, s)) == Ok(Ledger1(env, s))
  {
  }

  lemma CreateRuns(env: Crypto, s: Setup, ctx: Context)
    requires Sensible(env, s, ctx.slot)
    ensures Exec(env, Ledger1(env, s), ctx, CreateCall(env, s)) == Ok(Ledger2(env, s))
  {
  }

  lemma SubmitLoads(env: Crypto, s: Setup, slot: u64)
    requires Sensible(env, s, slot)
    ensures SubmitConstraints(env, Ledger2(env, s), SubmitCall(env, s)) == Ok((DemoConfig(s), DemoAccount(env, s)))
  {
  }

  lemma SubmitAccepted(env: Crypto, s: Setup, slot: u64)
    requires Sensible(env, s, slot)
    ensures Submitted(env, DemoConfig(s), ConfigKey(env, s), DemoAccount(env, s), AccountKey(env, s), s.owner, RequestKey(env, s),
                      SubmitArgs(s.amountHash, 0, 1), slot)
         == Ok((OpenedAccount(DemoAccount(env, s), RequestKey(env, s)), DemoRequest(env, s, slot)))
  {
  }

  lemma SubmitRuns(env: Crypto, s: Setup, ctx: Context)
    requires Sensible(env, s, ctx.slot)
    ensures Exec(env, Ledger2(env, s), ctx, SubmitCall(env, s)) == Ok(Ledger3(env, s, ctx.slot))
  {
    SubmitLoads(env, s, ctx.slot);
    SubmitAccepted(env, s, ctx.slot);
  }

  lemma FinalizeRuns(env: Crypto, s: Setup, ctx: Context)
    requires Sensible(env, s, ctx.slot) && LedgerInv(env, Ledger3(env, s, ctx.slot))
    requires VerifyOperatorMessage(ctx.ixs, ctx.current, s.operator, EncodeResult(DemoBinding(env, s, ctx.slot))).Ok?
    ensures ExecFinalize(env, Ledger3(env, s, ctx.slot), ctx, DemoFinalizeCall(env, s)) == Ok(Ledger4(env, s, ctx.slot))
  {
    var l, call := Ledger3(env, s, ctx.slot), DemoFinalizeCall(env, s);
    PreparedConstraints(env, l, RequestKey(env, s), call);
    FinalizeReduced(env, l, ctx, call);
    FinalizeCloses(env, l, ctx, call);
  }

  lemma RunThree(env: Crypto, w: World, a: seq<Action>)
    requires |a| >= 3
    ensures Run(env, w, a[..3]) == Step(env, Step(env, Step(env, w, a[0]), a[1]), a[2])
  {
    var w1 := Step(env, w, a[0]);
    var w2 := Step(env, w1, a[1]);
    assert a[..3][1..] == [a[1], a[2]] && [a[1], a[2]][1..] == [a[2]] && [a[2]][1..] == [];
    assert Run(env, w2, [a[2]]) == Run(env, Step(env, w2, a[2]), []);
    assert Run(env, w1, [a[1], a[2]]) == Run(env, w2, [a[2]]);
  }

  /** The world after the first three transactions. */
  lemma FirstThree(env: Crypto, s: Setup, slot: u64, data: Bytes)
    requires Sensible(env, s, slot)
    ensures var w3 := Run(env, Genesis(slot), DemoRun(env, s, slot, data)[..3]);
            w3.slot == slot && w3.ledger == Ledger3(env, s, slot)
  {
    var ctx := Context(slot, [Instruction(PROGRAM_ID, data)], 0);
    var a := DemoRun(env, s, slot, data);
    var w0 := Genesis(slot);
    InitializeRuns(env, s, ctx);
    AloneRuns(env, w0, InitializeCall(env, s), data);
    var w1 := Step(env, w0, a[0]);
    CreateRuns(env, s, ctx);
    AloneRuns(env, w1, CreateCall(env, s), data);
    var w2 := Step(env, w1, a[1]);
    SubmitRuns(env, s, ctx);
    AloneRuns(env, w2, SubmitCall(env, s), data);
    RunThree(env, w0, a);
  }

  /** All four transactions commit: the run ends with the request Finalized on exactly the signed result. */
  lemma DemoFinalizes(env: Crypto, s: Setup, slot: u64, data: Bytes)
    requires Sensible(env, s, slot)
    ensures var w := Run(env, Genesis(slot), DemoRun(env, s, slot, data));
            && Reachable(env, w)
            && w.ledger == Ledger4(env, s, slot)
            && IsRequest(w.ledger, RequestKey(env, s))
            && RequestAt(w.ledger, RequestKey(env, s)).status == Finalized
            && RequestAt(w.ledger, RequestKey(env, s)).resultHash == s.resultHash
  {
    var actions := DemoRun(env, s, slot, data);
    FirstThree(env, s, slot, data);
    var w3 := Run(env, Genesis(slot), actions[..3]);
    assert Reachable(env, w3);
    ReachableInv(env, w3);
    LastOne(env, s, w3, data);
    assert actions == actions[..3] + [actions[3]];
    RunAppend(env, Genesis(slot), actions[..3], [actions[3]]);
    assert Run(env, w3, [actions[3]]) == Run(env, Step(env, w3, actions[3]), []);
  }

  lemma LastOne(env: Crypto, s: Setup, w: World, data: Bytes)
    requires Sensible(env, s, w.slot) && w.ledger == Ledger3(env, s, w.slot) && LedgerInv(env, w.ledger)
    ensures Step(env, w, Pair(env, s, w.slot, data)).ledger == Ledger4(env, s, w.slot)
  {
    var b := DemoBinding(env, s, w.slot);
    var message := EncodeResult(b);
    var ixs: Instructions := [NewVerifyInstruction(message, s.signature, s.operator.bytes), Instruction(PROGRAM_ID, data)];
    ResultRoundTrip(b);
    PairAccepted(env, ixs, message, s.signature, s.operator, data);
    var ctx := Context(w.slot, ixs, 1);
    FinalizeRuns(env, s, ctx);
    FinalizeStep(env, w, ixs, DemoFinalizeCall(env, s));
  }

  lemma PairAccepted(env: Crypto, ixs: Instructions, message: Bytes, signature: Bytes64, operator: Pubkey, data: Bytes)
    requires |message| <= 0xFFFF && env.ed25519Verify(operator.bytes, message, signature)
    requires ixs == [NewVerifyInstruction(message, signature, operator.bytes), Instruction(PROGRAM_ID, data)]
    ensures PrecompilesAccept(env, ixs) && VerifyOperatorMessage(ixs, 1, operator, message).Ok?
  {
    ProgramsDiffer();
    BuiltAccepted(env, ixs, message, signature, operator.bytes);
    BuiltPassesIntrospection(ixs, 0, operator, message, signature);
  }

  /** A committed single finalize leaves exactly the ledger its call computes. */
  lemma FinalizeStep(env: Crypto, w: World, ixs: Instructions, call: Call)
    requires PrecompilesAccept(env, ixs) && call.Finalize?
    requires ExecFinalize(env, w.ledger, Context(w.slot, ixs, 1), call).Ok?
    ensures Transact(env, w, Transaction(ixs, [Invocation(1, call)])).ledger == ExecFinalize(env, w.ledger, Context(w.slot, ixs, 1), call).value
  {
    var tx := Transaction(ixs, [Invocation(1, call)]);
    assert InvokeUpTo(env, w, tx, 0) == Ok(w);
    assert InvokeUpTo(env, w, tx, 1) == Invoke(env, w, ixs, Invocation(1, call));
  }

  // ---- What the client's checks do not rule out ----

  /** The worker's output file for the demo request. */
  function DemoResult(env: Crypto, s: Setup, slot: u64): ParsedResult
    requires slot + DEMO_LIFETIME <= U64_MAX
  {
    var b := DemoBinding(env, s, slot);
    ParsedResult(s.resultHash, RequestDigest(env, b.request), ResultDigest(env, b), s.signature, s.operator.bytes,
                 RESULT_TYPE_FHE_BOOL, CIRCUIT_POLICY_V1)
  }

  /** After the first three transactions the client prepares the finalize. */
  lemma DemoPrepares(env: Crypto, s: Setup, slot: u64, l: Ledger)
    requires Sensible(env, s, slot) && l == Ledger3(env, s, slot) && LedgerInv(env, l)
    ensures PrepareFinalize(env, l, l, l, RequestKey(env, s), None, DemoResult(env, s, slot)).Ok?
  {
    var q := RequestKey(env, s);
    EvolvesReflexive(l);
    LockFollowsStatus(env, l, q);
    PendingIsLast(env, l, AccountKey(env, s), q);
    VerifyReduced(env, l, l, l, q);
    var r := DemoRequest(env, s, slot);
    var v := VerifiedRequest(r.config, DemoConfig(s), r.confidentialAccount, AccountAt(l, AccountKey(env, s)), q, r,
                             RequestBindingOf(DemoConfig(s), r, q));
    assert FetchAndVerifyRequest(env, l, l, l, q) == Ok(v);
    DemoConsistent(env, s, slot, v);
  }

  lemma DemoConsistent(env: Crypto, s: Setup, slot: u64, v: VerifiedRequest)
    requires Sensible(env, s, slot) && v.config == DemoConfig(s) && v.request == DemoRequest(env, s, slot)
    requires v.binding == RequestBindingOf(DemoConfig(s), v.request, RequestKey(env, s))
    ensures ValidateFinalizeConsistency(env, v, None, DemoResult(env, s, slot)).Ok?
  {
  }

  /** What was prepared from the third ledger lands on it exactly before the expiry slot. */
  lemma PreparedUntilExpiry(env: Crypto, s: Setup, slot: u64, w: World, late: World, data: Bytes)
    requires Sensible(env, s, slot) && Reachable(env, w) && Reachable(env, late)
    requires w.ledger == Ledger3(env, s, slot) && late.ledger == w.ledger
    ensures var prepared := PrepareFinalize(env, w.ledger, w.ledger, w.ledger, RequestKey(env, s), None, DemoResult(env, s, slot));
            prepared.Ok? && (Commits(env, late, FinalizeTransaction(prepared.value, data)) <==> late.slot < slot + DEMO_LIFETIME)
  {
    ReachableInv(env, w);
    DemoPrepares(env, s, slot, w.ledger);
    assert Run(env, w, []) == w;
    PreparedLands(env, w, [], [], RequestKey(env, s), None, DemoResult(env, s, slot), late, data);
  }

  /**
   * "A prepared finalize lands" is false of the client's checks alone: a finalize prepared from exactly
   * the ledger it executes on commits at once, and is refused by the same ledger once the clock has
   * reached the expiry slot. `PreparedLands` says for all inputs when it lands.
   */
  lemma PreparedCanExpire(env: Crypto, s: Setup, slot: u64, data: Bytes)
    requires Sensible(env, s, slot)
    ensures var w := Run(env, Genesis(slot), DemoRun(env, s, slot, data)[..3]);
            var late := Step(env, w, Advance(slot + DEMO_LIFETIME));
            var prepared := PrepareFinalize(env, w.ledger, w.ledger, w.ledger, RequestKey(env, s), None, DemoResult(env, s, slot));
            && Reachable(env, w) && Reachable(env, late) && late.ledger == w.ledger
            && prepared.Ok?
            && Commits(env, w, FinalizeTransaction(prepared.value, data))
            && !Commits(env, late, FinalizeTransaction(prepared.value, data))
  {
    FirstThree(env, s, slot, data);
    var w := Run(env, Genesis(slot), DemoRun(env, s, slot, data)[..3]);
    assert Reachable(env, w);
    var late := Step(env, w, Advance(slot + DEMO_LIFETIME));
    ReachableContinues(env, w, [Advance(slot + DEMO_LIFETIME)]);
    assert Run(env, w, [Advance(slot + DEMO_LIFETIME)]) == Run(env, late, []);
    PreparedUntilExpiry(env, s, slot, w, w, data);
    PreparedUntilExpiry(env, s, slot, w, late, data);
  }

  /**
   * "Verification of a genuine request succeeds" is false of three separate reads: when the demo's
   * finalize lands between the first read and the last, the client refuses a request that every
   * single ledger of the run vouches for. `TornReadExact` says for all runs when this happens.
   */
  lemma TornReadCanFail(env: Crypto, s: Setup, slot: u64, data: Bytes)
    requires Sensible(env, s, slot)
    ensures var before := Run(env, Genesis(slot), DemoRun(env, s, slot, data)[..3]);
            var after := Run(env, Genesis(slot), DemoRun(env, s, slot, data));
            var q := RequestKey(env, s);
            && FetchAndVerifyRequest(env, before.ledger, before.ledger, after.ledger, q) == Err(PendingPointerMismatch)
            && FetchAndVerifyRequest(env, before.ledger, before.ledger, before.ledger, q).Ok?
            && FetchAndVerifyRequest(env, after.ledger, after.ledger, after.ledger, q).Ok?
  {
    var actions := DemoRun(env, s, slot, data);
    var last := [actions[3]];
    var before := Run(env, Genesis(slot), actions[..3]);
    assert actions == actions[..3] + last;
    RunAppend(env, Genesis(slot), actions[..3], last);
    DemoFinalizes(env, s, slot, data);
    var after := Run(env, before, last);
    FirstThree(env, s, slot, data);
    assert Reachable(env, before) && Run(env, before, []) == before && Run(env, after, []) == after;
    TornReadExact(env, before, [], last, [], RequestKey(env, s));
    TornReadExact(env, before, [], [], [], RequestKey(env, s));
    TornReadExact(env, after, [], [], [], RequestKey(env, s));
  }
}
