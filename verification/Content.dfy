/** What the stored digests and the signed messages say: read back from bytes and compared with the records. */
module Content {
  import opened Types
  import opened LittleEndian
  import opened Protocol
  import opened State
  import opened Coordinator
  import opened Invariant
  import opened Lifecycle
  import opened Runs
  import opened Safety
  import opened Client

  /** The binding names the config's version and domain, the four addresses and every bound field of the request. */
  predicate Describes(b: RequestBinding, c: Config, k: Pubkey, r: Request) {
    && b.protocolVersion == c.protocolVersion && b.domainId == c.domainId && b.programId == PROGRAM_ID.bytes
    && b.config == r.config.bytes && b.mint == r.mint.bytes
    && b.confidentialAccount == r.confidentialAccount.bytes && b.requestPda == k.bytes
    && b.operation == r.operation
    && b.balanceHash == r.balanceHash && b.amountHash == r.amountHash && b.limitHash == r.limitHash && b.paramsHash == r.paramsHash
    && b.stateVersion == r.stateVersion && b.requestNonce == r.requestNonce && b.keyVersion == r.keyVersion
    && b.operatorEpoch == r.operatorEpoch && b.expirySlot == r.expirySlot
  }

  /** The digest is that of 377 bytes which decode to a description of the request. */
  ghost predicate DigestDescribes(env: Crypto, digest: Bytes32, c: Config, k: Pubkey, r: Request) {
    exists s :: env.sha256(s) == digest && DecodeRequest(s).Some? && Describes(DecodeRequest(s).value, c, k, r)
  }

  lemma OwnDigestDescribes(env: Crypto, c: Config, k: Pubkey, r: Request)
    ensures DigestDescribes(env, RequestDigest(env, RequestBindingOf(c, r, k)), c, k, r)
  {
    var b := RequestBindingOf(c, r, k);
    RequestRoundTrip(b);
    assert Describes(DecodeRequest(EncodeRequest(b)).value, c, k, r);
  }

  /** The digest a submit stores describes the request it stores. */
  lemma SubmitDigestContent(env: Crypto, l: Ledger, ctx: Context, call: Call)
    requires call.Submit? && ExecSubmit(env, l, ctx, call).Ok?
    ensures var l' := ExecSubmit(env, l, ctx, call).value;
            && IsConfig(l, call.config) && IsRequest(l', call.request)
            && var r := RequestAt(l', call.request);
            DigestDescribes(env, r.requestDigest, ConfigAt(l, call.config), call.request, r)
  {
    SubmitEffect(env, l, ctx, call);
    OwnDigestDescribes(env, ConfigAt(l, call.config), call.request, RequestAt(ExecSubmit(env, l, ctx, call).value, call.request));
  }

  /** So does the stored digest of every request of a reachable ledger, for good. */
  lemma StoredDigestContent(env: Crypto, w: World, k: Pubkey)
    requires Reachable(env, w) && IsRequest(w.ledger, k)
    ensures IsConfig(w.ledger, RequestAt(w.ledger, k).config)
    ensures var r := RequestAt(w.ledger, k);
            DigestDescribes(env, r.requestDigest, ConfigAt(w.ledger, r.config), k, r)
  {
    ReachableInv(env, w);
    assert RecordOk(env, w.ledger, k);
    var r := RequestAt(w.ledger, k);
    OwnDigestDescribes(env, ConfigAt(w.ledger, r.config), k, r);
  }

  /**
   * The message that settled a Finalized request decodes to a description of that request, its stored
   * digest, and the stored result as a Boolean of the policy circuit.
   */
  lemma FinalizedMessageContent(env: Crypto, w: World, k: Pubkey) returns (i: nat, b: ResultBinding)
    requires Reachable(env, w) && IsRequest(w.ledger, k) && RequestAt(w.ledger, k).status == Finalized
    ensures i < |w.history| && Shuts(w.history[i], k) && w.history[i].how.ByResult?
    ensures DecodeResult(w.history[i].how.message) == Some(b)
    ensures var r := RequestAt(w.ledger, k);
            && IsConfig(w.ledger, r.config)
            && Describes(b.request, ConfigAt(w.ledger, r.config), k, r)
            && b.requestDigest == r.requestDigest && b.resultHash == r.resultHash
            && b.resultType == 1 && b.circuitId == 1
            && env.sha256(w.history[i].how.message) == r.resultDigest
  {
    ReachableInv(env, w);
    var operator, signature, j := FinalizedWasSigned(env, w, k);
    var r := RequestAt(w.ledger, k);
    assert RecordOk(env, w.ledger, k) && RecordOk(env, w.ledger, r.config);
    i, b := j, StoredBinding(ConfigAt(w.ledger, r.config), r, k);
    ResultRoundTrip(b);
  }

  /** What finalize has the operator sign for describes the pending request and the submitted result. */
  lemma FinalizeMessageContent(c: Config, r: Request, k: Pubkey, args: FinalizeArgs)
    ensures var b := DecodeResult(EncodeResult(ResultBindingOf(c, r, k, args)));
            && b.Some? && Describes(b.value.request, c, k, r) && b.value.requestDigest == r.requestDigest
            && b.value.resultHash == args.resultHash && b.value.resultType == args.resultType && b.value.circuitId == args.circuitId
  {
    ResultRoundTrip(ResultBindingOf(c, r, k, args));
  }

  /** On arbitrary records, a binding the client accepts describes the records it read. */
  lemma AcceptedBindingContent(env: Crypto, requestAddress: Pubkey, r: Request, configAddress: Pubkey, c: Config,
                               accountAddress: Pubkey, a: ConfidentialAccount)
    requires VerifyRequestAccounts(env, requestAddress, r, configAddress, c, accountAddress, a).Ok?
    ensures Describes(VerifyRequestAccounts(env, requestAddress, r, configAddress, c, accountAddress, a).value, c, requestAddress, r)
  {
  }

  // ---- Where each field stands ----

  /** The request encoding at absolute offsets. */
  lemma RequestLayout(b: RequestBinding)
    ensures var s := EncodeRequest(b);
            && |s| == 377 && s[..17] == DOMAIN_REQUEST && s[17..19] == U16Le(b.protocolVersion)
            && s[19..51] == b.domainId && s[51..83] == b.programId && s[83..115] == b.config && s[115..147] == b.mint
            && s[147..179] == b.confidentialAccount && s[179..211] == b.requestPda && s[211..213] == U16Le(b.operation)
            && s[213..245] == b.balanceHash && s[245..277] == b.amountHash && s[277..309] == b.limitHash && s[309..341] == b.paramsHash
            && s[341..349] == U64Le(b.stateVersion) && s[349..357] == U64Le(b.requestNonce) && s[357..361] == U32Le(b.keyVersion)
            && s[361..369] == U64Le(b.operatorEpoch) && s[369..377] == U64Le(b.expirySlot)
  {
    var s := EncodeRequest(b);
    IdsSlices(b);
    CommitmentsSlices(b);
    CountersSlices(b);
    SliceOfSlice(s, 17, 211, Ids(b));
    SliceOfSlice(s, 211, 341, Commitments(b));
    SliceOfSlice(s, 341, 377, Counters(b));
  }

  /** A slice of a part is the slice of the whole, shifted. */
  lemma SliceOfSlice(s: Bytes, from: nat, to: nat, part: Bytes)
    requires from <= to <= |s| && s[from..to] == part
    ensures forall i, j {:trigger part[i..j]} :: 0 <= i <= j <= |part| ==> s[from + i..from + j] == part[i..j]
  {
    forall i, j | 0 <= i <= j <= |part|
      ensures s[from + i..from + j] == part[i..j]
    {
      assert forall k :: 0 <= k < j - i ==> s[from + i..from + j][k] == part[i..j][k];
    }
  }

  /** The result encoding: the request's body under the other prefix, then the four result fields. */
  lemma ResultLayout(b: ResultBinding)
    ensures var s := EncodeResult(b);
            && |s| == 444 && s[..17] == DOMAIN_RESULT && s[17..377] == EncodeRequest(b.request)[17..]
            && s[377..409] == b.requestDigest && s[409..441] == b.resultHash && s[441] == b.resultType && s[442..444] == U16Le(b.circuitId)
  {
    var s := EncodeResult(b);
    assert s[17..377] == Body(b.request) && s[377..444] == Tail(b);
    assert Tail(b)[..32] == b.requestDigest && Tail(b)[32..64] == b.resultHash && Tail(b)[65..67] == U16Le(b.circuitId);
    SliceOfSlice(s, 377, 444, Tail(b));
    assert s[377 + 0..377 + 32] == Tail(b)[0..32];
    assert s[377 + 32..377 + 64] == Tail(b)[32..64];
    assert s[377 + 65..377 + 67] == Tail(b)[65..67];
  }

  /** A ciphertext blob at absolute offsets. */
  lemma BlobLayout(kind: u8, keyVersion: u32, paramsHash: Bytes32, payload: Bytes)
    ensures var s := WrapBlob(kind, keyVersion, paramsHash, payload);
            && |s| == 41 + |payload| && s[..4] == Ascii("CTL1") && s[4] == kind && s[5..9] == U32Le(keyVersion)
            && s[9..41] == paramsHash && s[41..] == payload
  {
  }

  // ---- Constants and derivations in text ----

  function Ascii(text: string): Bytes
    requires forall i :: 0 <= i < |text| ==> text[i] < 128 as char
  {
    seq(|text|, i requires 0 <= i < |text| => text[i] as int)
  }

  lemma DomainsInText()
    ensures DOMAIN_REQUEST == Ascii("SOLFHE-CTL-REQ-V1") && DOMAIN_RESULT == Ascii("SOLFHE-CTL-RES-V1")
    ensures CT_KIND_U64 == 1 && CT_KIND_BOOL == 2
  {
  }

  /** The seeds of the three derivations. */
  lemma SeedsInText(env: Crypto, mint: Pubkey, owner: Pubkey, account: Pubkey, nonce: u64)
    ensures ConfigPda(env, mint) == env.findProgramAddress([Ascii("config"), mint.bytes])
    ensures AccountPda(env, mint, owner) == env.findProgramAddress([Ascii("account"), mint.bytes, owner.bytes])
    ensures RequestPda(env, account, nonce) == env.findProgramAddress([Ascii("request"), account.bytes, ToLe(nonce, 8)])
  {
    assert SEED_CONFIG == Ascii("config") && SEED_ACCOUNT == Ascii("account") && SEED_REQUEST == Ascii("request");
  }

  /** Two different seed lists with one derived address. */
  predicate SeedsCollide(env: Crypto, s: seq<Bytes>, t: seq<Bytes>) {
    s != t && env.findProgramAddress(s) == env.findProgramAddress(t)
  }

  /** A config address determines its mint, or two seed lists collide; likewise the other two kinds. */
  lemma AddressesDetermine(env: Crypto, mint: Pubkey, mint': Pubkey, owner: Pubkey, owner': Pubkey,
                           account: Pubkey, account': Pubkey, nonce: u64, nonce': u64)
    ensures ConfigPda(env, mint) == ConfigPda(env, mint') ==>
              mint == mint' || SeedsCollide(env, [SEED_CONFIG, mint.bytes], [SEED_CONFIG, mint'.bytes])
    ensures AccountPda(env, mint, owner) == AccountPda(env, mint', owner') ==>
              (mint == mint' && owner == owner')
              || SeedsCollide(env, [SEED_ACCOUNT, mint.bytes, owner.bytes], [SEED_ACCOUNT, mint'.bytes, owner'.bytes])
    ensures RequestPda(env, account, nonce) == RequestPda(env, account', nonce') ==>
              (account == account' && nonce == nonce')
              || SeedsCollide(env, [SEED_REQUEST, account.bytes, U64Le(nonce)], [SEED_REQUEST, account'.bytes, U64Le(nonce')])
  {
    var s, s' := [SEED_CONFIG, mint.bytes], [SEED_CONFIG, mint'.bytes];
    if s == s' {
      assert s[1] == s'[1];
    }
    var t, t' := [SEED_ACCOUNT, mint.bytes, owner.bytes], [SEED_ACCOUNT, mint'.bytes, owner'.bytes];
    if t == t' {
      assert t[1] == t'[1] && t[2] == t'[2];
    }
    var u, u' := [SEED_REQUEST, account.bytes, U64Le(nonce)], [SEED_REQUEST, account'.bytes, U64Le(nonce')];
    if u == u' {
      assert u[1] == u'[1] && u[2] == u'[2];
      U64RoundTrip(nonce);
      U64RoundTrip(nonce');
    }
  }

  /** The zero hash is 32 zero bytes. */
  lemma ZeroHashExact(hash: Bytes32)
    ensures IsZeroHash(hash) <==> forall i :: 0 <= i < 32 ==> hash[i] == 0
  {
  }
}
