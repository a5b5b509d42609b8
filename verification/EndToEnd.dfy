/** From encrypted inputs to the finalized Boolean: what a Finalized request's result hash decrypts to. */
module EndToEnd {
  import opened Types
  import opened Protocol
  import opened State
  import opened Coordinator
  import opened Invariant
  import opened Runs
  import opened Safety
  import opened Worker
  import opened Client
  import opened ClientProofs

  /** What happens to the worker's store: a client blob arrives, or the worker serves a request under some key. */
  datatype StoreAction = PutBlob(bytes: Bytes) | Serve(request: RequestBinding, key: Bytes)

  /** The blobs an action offers to the store. */
  function Offers<C, B>(env: Crypto, fhe: Fhe<C, B>, files: Files, action: StoreAction): seq<Bytes> {
    match action
    case PutBlob(b) => [b]
    case Serve(request, key) =>
      match Processed(env, fhe, files, request, key)
      case Ok(done) => [done.0]
      case Err(_) => []
  }

  /** Everything that the first `n` actions offer to the store they find, in order. */
  function OfferedBy(env: Crypto, offers: (Files, StoreAction) -> seq<Bytes>, actions: seq<StoreAction>, n: nat): seq<Bytes>
    requires n <= |actions|
  {
    if n == 0 then []
    else
      var before := OfferedBy(env, offers, actions, n - 1);
      before + offers(PutAll(env, map[], before), actions[n - 1])
  }

  /** Everything offered by the first `n` actions when the worker serves with `fhe`. */
  function Offered<C, B>(env: Crypto, fhe: Fhe<C, B>, actions: seq<StoreAction>, n: nat): seq<Bytes>
    requires n <= |actions|
  {
    OfferedBy(env, (files, action) => Offers(env, fhe, files, action), actions, n)
  }

  /** The store after the first `n` actions. */
  function StoreAt<C, B>(env: Crypto, fhe: Fhe<C, B>, actions: seq<StoreAction>, n: nat): Files
    requires n <= |actions|
  {
    PutAll(env, map[], Offered(env, fhe, actions, n))
  }

  /** Serving the request of action number `i` makes the worker sign `message`. */
  predicate ServedAt<C, B(==)>(env: Crypto, fhe: Fhe<C, B>, actions: seq<StoreAction>, i: nat, message: Bytes) {
    && i < |actions| && actions[i].Serve?
    && var done := Processed(env, fhe, StoreAt(env, fhe, actions, i), actions[i].request, actions[i].key);
    done.Ok? && message == EncodeResult(done.value.1)
  }

  // ---- Signatures that were made ----

  /** A signature somebody made with the key of `operator`. */
  datatype Signature = Signature(operator: Pubkey, message: Bytes, bytes: Bytes64)

  /** The signatures with which the history settled requests. */
  ghost predicate Accepted(h: History, s: Signature) {
    exists i: nat, k :: SettledBy(h, i, k, s.operator, s.message, s.bytes)
  }

  /** What the chain accepted under an operator's key, the holder of that key signed: no message was forged. */
  ghost predicate Unforged(h: History, made: set<Signature>) {
    forall s {:trigger Accepted(h, s)} :: Accepted(h, s) ==>
      exists t :: t in made && t.operator == s.operator && t.message == s.message
  }

  /** Whoever held an operator key of the run signed with it only what the worker produced. */
  ghost predicate HonestOperators<C, B>(env: Crypto, fhe: Fhe<C, B>, actions: seq<StoreAction>, h: History,
                                                    made: set<Signature>)
  {
    forall s, config, epoch {:trigger s in made, OperatorOf(h, config, epoch, s.operator)} ::
      s in made && OperatorOf(h, config, epoch, s.operator) ==> exists i: nat :: ServedAt(env, fhe, actions, i, s.message)
  }

  /** Two different strings among `s` share a digest. */
  ghost predicate CollisionAmong(env: Crypto, s: set<Bytes>) {
    exists x, y :: x in s && y in s && Collides(env, x, y)
  }

  /** Every byte string the store or a commitment check has seen: offered blobs and presented keys. */
  ghost function Seen<C, B>(env: Crypto, fhe: Fhe<C, B>, actions: seq<StoreAction>): set<Bytes> {
    (set b | b in Offered(env, fhe, actions, |actions|)) + (set a | a in actions && a.Serve? :: a.key)
  }

  // ---- The store over a run ----

  lemma {:induction false} PutAllOrigin(env: Crypto, blobs: seq<Bytes>, h: Bytes32)
    requires Stored(h) in PutAll(env, map[], blobs)
    ensures PutAll(env, map[], blobs)[Stored(h)] in blobs
    decreases |blobs|
  {
    if blobs != [] {
      var before := blobs[..|blobs| - 1];
      if Stored(h) in PutAll(env, map[], before) {
        PutAllOrigin(env, before, h);
      }
    }
  }

  lemma {:induction false} OfferedGrows(env: Crypto, offers: (Files, StoreAction) -> seq<Bytes>, actions: seq<StoreAction>, n: nat, m: nat)
    requires n <= m <= |actions|
    ensures OfferedBy(env, offers, actions, n) <= OfferedBy(env, offers, actions, m)
    decreases m
  {
    if n < m {
      OfferedGrows(env, offers, actions, n, m - 1);
    }
  }

  /** A blob read at any time was offered at some time. */
  lemma ReadWasSeen<C, B>(env: Crypto, fhe: Fhe<C, B>, actions: seq<StoreAction>, n: nat, h: Bytes32)
    requires n <= |actions| && GetFile(env, StoreAt(env, fhe, actions, n), h).Ok?
    ensures GetFile(env, StoreAt(env, fhe, actions, n), h).value in Seen(env, fhe, actions)
  {
    PutAllOrigin(env, Offered(env, fhe, actions, n), h);
    OfferedGrows(env, (files, action) => Offers(env, fhe, files, action), actions, n, |actions|);
    var x := GetFile(env, StoreAt(env, fhe, actions, n), h).value;
    var i :| 0 <= i < |Offered(env, fhe, actions, n)| && Offered(env, fhe, actions, n)[i] == x;
    assert Offered(env, fhe, actions, |actions|)[i] == x;
  }

  // ---- One committed input ----

  /** `blob` is the wrapped serialization of `ct`, and its digest is the committed `hash`. */
  predicate Commits64<C(==), B>(env: Crypto, fhe: Fhe<C, B>, hash: Bytes32, keyVersion: u32, paramsHash: Bytes32, ct: C, blob: Bytes) {
    BlobOfU64(fhe, ct, keyVersion, paramsHash) == Ok(blob) && env.sha256(blob) == hash
  }

  /** What loads from the blob of a ciphertext is that ciphertext. */
  lemma U64Loads<C, B>(env: Crypto, fhe: Fhe<C, B>, files: Files, hash: Bytes32, ct: C, blob: Bytes, keyVersion: u32, paramsHash: Bytes32)
    requires RoundTripsU64(fhe, ct) && BlobOfU64(fhe, ct, keyVersion, paramsHash) == Ok(blob)
    requires GetFile(env, files, hash) == Ok(blob)
    ensures LoadU64(env, fhe, files, hash, keyVersion, paramsHash) == Ok(ct)
  {
    UnwrapExact(blob, CT_KIND_U64, keyVersion, paramsHash, fhe.serializeU64(ct).value);
  }

  /** Loading a committed hash yields the committed ciphertext, unless two seen strings collide. */
  lemma LoadedIsCommitted<C, B>(env: Crypto, fhe: Fhe<C, B>, actions: seq<StoreAction>, n: nat,
                                hash: Bytes32, keyVersion: u32, paramsHash: Bytes32, ct: C, blob: Bytes)
    requires RoundTripsU64(fhe, ct) && n <= |actions| && Commits64(env, fhe, hash, keyVersion, paramsHash, ct, blob)
    requires LoadU64(env, fhe, StoreAt(env, fhe, actions, n), hash, keyVersion, paramsHash).Ok?
    ensures LoadU64(env, fhe, StoreAt(env, fhe, actions, n), hash, keyVersion, paramsHash).value == ct
         || CollisionAmong(env, Seen(env, fhe, actions) + {blob})
  {
    var files := StoreAt(env, fhe, actions, n);
    var x := GetFile(env, files, hash).value;
    ReadWasSeen(env, fhe, actions, n, hash);
    if x == blob {
      U64Loads(env, fhe, files, hash, ct, blob, keyVersion, paramsHash);
    } else {
      GetSound(env, files, hash, x);
      assert Collides(env, x, blob);
    }
  }

  // ---- The served result ----

  /** A stored Boolean blob loads as the ciphertext it was made from. */
  lemma BoolLoads<C, B>(env: Crypto, fhe: Fhe<C, B>, files: Files, hash: Bytes32, ct: B, blob: Bytes, keyVersion: u32, paramsHash: Bytes32)
    requires RoundTripsBool(fhe, ct) && BlobOfBool(fhe, ct, keyVersion, paramsHash) == Ok(blob)
    requires GetFile(env, files, hash) == Ok(blob)
    ensures LoadBool(env, fhe, files, hash, keyVersion, paramsHash) == Ok(ct)
  {
    UnwrapExact(blob, CT_KIND_BOOL, keyVersion, paramsHash, fhe.serializeBool(ct).value);
  }

  /** Once offered, a result blob loads at the end as the ciphertext it was made from, unless two seen strings collide. */
  lemma ResultLoads<C, B>(env: Crypto, fhe: Fhe<C, B>, actions: seq<StoreAction>, ct: B, blob: Bytes,
                          keyVersion: u32, paramsHash: Bytes32)
    requires RoundTripsBool(fhe, ct) && BlobOfBool(fhe, ct, keyVersion, paramsHash) == Ok(blob)
    requires blob in Offered(env, fhe, actions, |actions|)
    ensures LoadBool(env, fhe, StoreAt(env, fhe, actions, |actions|), env.sha256(blob), keyVersion, paramsHash) == Ok(ct)
         || CollisionAmong(env, Seen(env, fhe, actions))
  {
    var blobs := Offered(env, fhe, actions, |actions|);
    var i :| 0 <= i < |blobs| && blobs[i] == blob;
    GetAfterPuts(env, map[], blobs, i);
    var x := GetFile(env, PutAll(env, map[], blobs), env.sha256(blob)).value;
    ReadWasSeen(env, fhe, actions, |actions|, env.sha256(blob));
    if x == blob {
      BoolLoads(env, fhe, PutAll(env, map[], blobs), env.sha256(blob), ct, blob, keyVersion, paramsHash);
    } else {
      assert blob in Seen(env, fhe, actions);
      assert Collides(env, x, blob);
    }
  }

  lemma ServedWasOffered<C, B>(env: Crypto, fhe: Fhe<C, B>, actions: seq<StoreAction>, i: nat)
    requires i < |actions| && actions[i].Serve?
    requires Processed(env, fhe, StoreAt(env, fhe, actions, i), actions[i].request, actions[i].key).Ok?
    ensures Processed(env, fhe, StoreAt(env, fhe, actions, i), actions[i].request, actions[i].key).value.0
            in Offered(env, fhe, actions, |actions|)
  {
    var blob := Processed(env, fhe, StoreAt(env, fhe, actions, i), actions[i].request, actions[i].key).value.0;
    OfferedGrows(env, (files, action) => Offers(env, fhe, files, action), actions, i + 1, |actions|);
    var now := Offered(env, fhe, actions, i + 1);
    assert now == Offered(env, fhe, actions, i) + [blob];
    assert now[|now| - 1] == blob;
    assert Offered(env, fhe, actions, |actions|)[|now| - 1] == blob;
  }

  /** The three committed plaintexts of a request, with the blobs behind its hashes. */
  datatype Inputs<C> = Inputs(balance: C, amount: C, limit: C, balanceBlob: Bytes, amountBlob: Bytes, limitBlob: Bytes)

  predicate InputsCommitted<C(==), B>(env: Crypto, fhe: Fhe<C, B>, r: RequestBinding, x: Inputs<C>) {
    && Commits64(env, fhe, r.balanceHash, r.keyVersion, r.paramsHash, x.balance, x.balanceBlob)
    && Commits64(env, fhe, r.amountHash, r.keyVersion, r.paramsHash, x.amount, x.amountBlob)
    && Commits64(env, fhe, r.limitHash, r.keyVersion, r.paramsHash, x.limit, x.limitBlob)
  }

  ghost function Exhibit<C, B>(env: Crypto, fhe: Fhe<C, B>, actions: seq<StoreAction>, key: Bytes, x: Inputs<C>): set<Bytes> {
    Seen(env, fhe, actions) + {key, x.balanceBlob, x.amountBlob, x.limitBlob}
  }

  lemma CollisionGrows(env: Crypto, s: set<Bytes>, t: set<Bytes>)
    requires CollisionAmong(env, s) && s <= t
    ensures CollisionAmong(env, t)
  {
  }

  /** What the worker evaluates when it serves a request is the circuit on the committed ciphertexts. */
  lemma ServedEvaluates<C, B>(env: Crypto, fhe: Fhe<C, B>, key: Bytes, actions: seq<StoreAction>, i: nat, x: Inputs<C>)
    requires i < |actions| && actions[i].Serve? && LawfulAt(fhe, key, x.balance, x.amount, x.limit)
    requires var q := actions[i].request;
             InputsCommitted(env, fhe, q, x) && env.sha256(key) == q.paramsHash
             && EvaluateRequest(env, fhe, StoreAt(env, fhe, actions, i), q, actions[i].key).Ok?
    ensures EvaluateRequest(env, fhe, StoreAt(env, fhe, actions, i), actions[i].request, actions[i].key).value
            == EvaluatePolicy(fhe, key, x.balance, x.amount, x.limit)
         || CollisionAmong(env, Exhibit(env, fhe, actions, key, x))
  {
    var q := actions[i].request;
    var s := Exhibit(env, fhe, actions, key, x);
    LoadedIsCommitted(env, fhe, actions, i, q.balanceHash, q.keyVersion, q.paramsHash, x.balance, x.balanceBlob);
    LoadedIsCommitted(env, fhe, actions, i, q.amountHash, q.keyVersion, q.paramsHash, x.amount, x.amountBlob);
    LoadedIsCommitted(env, fhe, actions, i, q.limitHash, q.keyVersion, q.paramsHash, x.limit, x.limitBlob);
    if CollisionAmong(env, Seen(env, fhe, actions) + {x.balanceBlob}) {
      CollisionGrows(env, Seen(env, fhe, actions) + {x.balanceBlob}, s);
    } else if CollisionAmong(env, Seen(env, fhe, actions) + {x.amountBlob}) {
      CollisionGrows(env, Seen(env, fhe, actions) + {x.amountBlob}, s);
    } else if CollisionAmong(env, Seen(env, fhe, actions) + {x.limitBlob}) {
      CollisionGrows(env, Seen(env, fhe, actions) + {x.limitBlob}, s);
    } else if actions[i].key != key {
      assert actions[i] in actions;
      assert Collides(env, actions[i].key, key);
    }
  }

  /** What the worker evaluates decrypts to the policy of the committed plaintexts. */
  lemma ServedMeansPolicy<C, B>(env: Crypto, fhe: Fhe<C, B>, key: Bytes, actions: seq<StoreAction>, i: nat, x: Inputs<C>)
    requires i < |actions| && actions[i].Serve? && LawfulAt(fhe, key, x.balance, x.amount, x.limit)
    requires var q := actions[i].request;
             InputsCommitted(env, fhe, q, x) && env.sha256(key) == q.paramsHash
             && EvaluateRequest(env, fhe, StoreAt(env, fhe, actions, i), q, actions[i].key).Ok?
    ensures var evaluated := EvaluateRequest(env, fhe, StoreAt(env, fhe, actions, i), actions[i].request, actions[i].key).value;
            || (evaluated == EvaluatePolicy(fhe, key, x.balance, x.amount, x.limit)
                && fhe.decryptBool(evaluated) == Policy(fhe.decryptU64(x.balance), fhe.decryptU64(x.amount), fhe.decryptU64(x.limit)))
            || CollisionAmong(env, Exhibit(env, fhe, actions, key, x))
  {
    ServedEvaluates(env, fhe, key, actions, i, x);
    CircuitComputesPolicy(fhe, key, x.balance, x.amount, x.limit);
  }

  /** A request served from its committed inputs leaves a result blob that loads and decrypts to the policy. */
  lemma ServedResultLoads<C, B>(env: Crypto, fhe: Fhe<C, B>, key: Bytes, actions: seq<StoreAction>, i: nat,
                                  b: ResultBinding, x: Inputs<C>)
    requires LawfulAt(fhe, key, x.balance, x.amount, x.limit) && ServedAt(env, fhe, actions, i, EncodeResult(b))
    requires InputsCommitted(env, fhe, b.request, x) && env.sha256(key) == b.request.paramsHash
    ensures var loaded := LoadBool(env, fhe, StoreAt(env, fhe, actions, |actions|), b.resultHash, b.request.keyVersion, b.request.paramsHash);
            || (loaded.Ok? && fhe.decryptBool(loaded.value)
                              == Policy(fhe.decryptU64(x.balance), fhe.decryptU64(x.amount), fhe.decryptU64(x.limit)))
            || CollisionAmong(env, Exhibit(env, fhe, actions, key, x))
  {
    var files := StoreAt(env, fhe, actions, i);
    var done := Processed(env, fhe, files, actions[i].request, actions[i].key).value;
    EncodeResultInjective(b, done.1);
    ServedMeansPolicy(env, fhe, key, actions, i, x);
    ServedWasOffered(env, fhe, actions, i);
    if !CollisionAmong(env, Exhibit(env, fhe, actions, key, x)) {
      var ct := EvaluatePolicy(fhe, key, x.balance, x.amount, x.limit);
      ResultLoads(env, fhe, actions, ct, done.0, b.request.keyVersion, b.request.paramsHash);
      if CollisionAmong(env, Seen(env, fhe, actions)) {
        CollisionGrows(env, Seen(env, fhe, actions), Exhibit(env, fhe, actions, key, x));
      }
    }
  }

  /** With honest operators and no forgery, a Finalized request's result was served by the worker. */
  lemma FinalizedWasServed<C, B>(env: Crypto, fhe: Fhe<C, B>, actions: seq<StoreAction>, made: set<Signature>,
                                             w: World, k: Pubkey) returns (i: nat)
    requires Reachable(env, w) && Unforged(w.history, made) && HonestOperators(env, fhe, actions, w.history, made)
    requires IsRequest(w.ledger, k) && RequestAt(w.ledger, k).status == Finalized
    ensures IsConfig(w.ledger, RequestAt(w.ledger, k).config)
    ensures ServedAt(env, fhe, actions, i,
                     EncodeResult(StoredBinding(ConfigAt(w.ledger, RequestAt(w.ledger, k).config), RequestAt(w.ledger, k), k)))
  {
    var operator, signature, j := FinalizedWasSigned(env, w, k);
    var s := Signature(operator, w.history[j].how.message, signature);
    assert Accepted(w.history, s);
    var t :| t in made && t.operator == s.operator && t.message == s.message;
    i :| ServedAt(env, fhe, actions, i, t.message);
  }

  /**
   * End to end. In any run of the coordinator beside any run of the worker's store, if no message was
   * forged and operators signed only what the worker produced, then the result hash of a Finalized
   * request loads from the final store and decrypts to the policy of the plaintexts behind the request's
   * committed hashes, or two different strings among the ones exhibited have the same SHA-256 digest.
   */
  lemma FinalizedMeansPolicy<C, B>(env: Crypto, fhe: Fhe<C, B>, key: Bytes, actions: seq<StoreAction>,
                                               made: set<Signature>, w: World, k: Pubkey, x: Inputs<C>)
    requires Reachable(env, w) && Unforged(w.history, made) && HonestOperators(env, fhe, actions, w.history, made)
    requires IsRequest(w.ledger, k) && RequestAt(w.ledger, k).status == Finalized
    requires IsConfig(w.ledger, RequestAt(w.ledger, k).config)
    requires var r := RequestAt(w.ledger, k);
             InputsCommitted(env, fhe, RequestBindingOf(ConfigAt(w.ledger, r.config), r, k), x)
    requires LawfulAt(fhe, key, x.balance, x.amount, x.limit) && env.sha256(key) == RequestAt(w.ledger, k).paramsHash
    ensures var r := RequestAt(w.ledger, k);
            var loaded := LoadBool(env, fhe, StoreAt(env, fhe, actions, |actions|), r.resultHash, r.keyVersion, r.paramsHash);
            || (loaded.Ok? && fhe.decryptBool(loaded.value)
                              == Policy(fhe.decryptU64(x.balance), fhe.decryptU64(x.amount), fhe.decryptU64(x.limit)))
            || CollisionAmong(env, Exhibit(env, fhe, actions, key, x))
  {
    var r := RequestAt(w.ledger, k);
    var i := FinalizedWasServed(env, fhe, actions, made, w, k);
    ServedResultLoads(env, fhe, key, actions, i, StoredBinding(ConfigAt(w.ledger, r.config), r, k), x);
  }

  // ---- From the worker's output to the client's acceptance ----

  /** The client accepts an honest worker's result for a verified Pending request, unless its cache or circuit differ. */
  lemma HonestResultAccepted<C, B>(env: Crypto, fhe: Fhe<C, B>, files: Files, key: Bytes, v: VerifiedRequest,
                                   cached: Option<RequestBinding>, signature: Bytes64)
    requires v.request.requestDigest == RequestDigest(env, v.binding)
    requires Processed(env, fhe, files, v.binding, key).Ok?
    requires env.ed25519Verify(v.config.operator.bytes, EncodeResult(Processed(env, fhe, files, v.binding, key).value.1), signature)
    ensures var b := Processed(env, fhe, files, v.binding, key).value.1;
            ValidateFinalizeConsistency(env, v, cached, ResultFileOf(env, b, signature, v.config.operator)) == Ok(b)
            <==> v.request.status == Pending && v.config.circuitId == CIRCUIT_POLICY_V1 && (cached.None? || cached.value == v.binding)
  {
  }
}
