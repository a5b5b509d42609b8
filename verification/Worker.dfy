/** The content-addressed blob store and the worker that evaluates the policy circuit on it. */
module Worker {
  import opened Types
  import opened Protocol

  datatype WorkerError = Io | HashMismatch | Blob(error: BlobError) | Deserialize | Serialize | Params | Unsupported

  /**
   * The homomorphic library over 64-bit ciphertexts `C` and Boolean ciphertexts `B`. An evaluation key
   * is its own serialization, so hashing it needs no further function.
   */
  datatype Fhe<!C, !B> = Fhe(
    serializeU64: C -> Option<Bytes>,
    deserializeU64: Bytes -> Option<C>,
    serializeBool: B -> Option<Bytes>,
    deserializeBool: Bytes -> Option<B>,
    ge: (Bytes, C, C) -> B,
    le: (Bytes, C, C) -> B,
    and: (Bytes, B, B) -> B,
    decryptU64: C -> u64,
    decryptBool: B -> bool)

  /** Whatever this ciphertext serializes to deserializes to it. */
  predicate RoundTripsU64<C(==), B>(fhe: Fhe<C, B>, c: C) {
    var s := fhe.serializeU64(c);
    s.Some? ==> fhe.deserializeU64(s.value) == Some(c)
  }

  predicate RoundTripsBool<C, B(==)>(fhe: Fhe<C, B>, b: B) {
    var s := fhe.serializeBool(b);
    s.Some? ==> fhe.deserializeBool(s.value) == Some(b)
  }

  /**
   * What is assumed of the library, at three inputs only: they and the circuit's result survive
   * serialization, and the circuit's three gates under `key` commute with decryption.
   */
  predicate LawfulAt<C(==), B(==)>(fhe: Fhe<C, B>, key: Bytes, balance: C, amount: C, limit: C) {
    && RoundTripsU64(fhe, balance) && RoundTripsU64(fhe, amount) && RoundTripsU64(fhe, limit)
    && RoundTripsBool(fhe, EvaluatePolicy(fhe, key, balance, amount, limit))
    && var enough, within := fhe.ge(key, balance, amount), fhe.le(key, amount, limit);
    && fhe.decryptBool(enough) == (fhe.decryptU64(balance) >= fhe.decryptU64(amount))
    && fhe.decryptBool(within) == (fhe.decryptU64(amount) <= fhe.decryptU64(limit))
    && fhe.decryptBool(fhe.and(key, enough, within)) == (fhe.decryptBool(enough) && fhe.decryptBool(within))
  }

  // ---- The store ----

  /** A file of the store: a blob under its hash, or the temporary it is written to first. */
  datatype Name = Stored(hash: Bytes32) | Tmp(hash: Bytes32)

  type Files = map<Name, Bytes>

  function PutFiles(env: Crypto, files: Files, bytes: Bytes): Files {
    var hash := env.sha256(bytes);
    if Stored(hash) in files then files else files[Stored(hash) := bytes] - {Tmp(hash)}
  }

  function GetFile(env: Crypto, files: Files, expected: Bytes32): Result<Bytes, WorkerError> {
    if Stored(expected) !in files then Err(Io)
    else if env.sha256(files[Stored(expected)]) != expected then Err(HashMismatch)
    else Ok(files[Stored(expected)])
  }

  /** A directory of files, changed one file at a time. */
  class BlobStore {
    var files: Files

    constructor ()
      ensures files == map[]
    {
      files := map[];
    }

    /** Writes the temporary, then renames it over the final name; an existing blob is left alone. */
    method Put(env: Crypto, bytes: Bytes) returns (hash: Bytes32)
      modifies this
      ensures hash == env.sha256(bytes)
      ensures files == PutFiles(env, old(files), bytes)
    {
      hash := env.sha256(bytes);
      if Stored(hash) !in files {
        files := files[Tmp(hash) := bytes];
        files := files[Stored(hash) := files[Tmp(hash)]] - {Tmp(hash)};
      }
    }

    /**
     * The caller gets bytes only if they are the stored file and hash to the key asked for; a missing file
     * and a file with another hash are told apart.
     */
    method Get(env: Crypto, expected: Bytes32) returns (r: Result<Bytes, WorkerError>)
      ensures r.Ok? <==> Stored(expected) in files && env.sha256(files[Stored(expected)]) == expected
      ensures r.Ok? ==> r.value == files[Stored(expected)] && env.sha256(r.value) == expected
      ensures Stored(expected) !in files ==> r == Err(Io)
      ensures Stored(expected) in files && env.sha256(files[Stored(expected)]) != expected ==> r == Err(HashMismatch)
    {
      if Stored(expected) !in files {
        return Err(Io);
      }
      var bytes := files[Stored(expected)];
      if env.sha256(bytes) != expected {
        return Err(HashMismatch);
      }
      return Ok(bytes);
    }
  }

  /** Every stored blob has the hash it is stored under. */
  ghost predicate Untampered(env: Crypto, files: Files) {
    forall h: Bytes32 :: Stored(h) in files ==> env.sha256(files[Stored(h)]) == h
  }

  /** Files as left by a sequence of puts. */
  function PutAll(env: Crypto, files: Files, blobs: seq<Bytes>): Files {
    if blobs == [] then files else PutFiles(env, PutAll(env, files, blobs[..|blobs| - 1]), blobs[|blobs| - 1])
  }

  /** Under arbitrary tampering, a read returns only bytes that hash to the requested key. */
  lemma GetSound(env: Crypto, files: Files, expected: Bytes32, b: Bytes)
    requires GetFile(env, files, expected) == Ok(b)
    ensures env.sha256(b) == expected
  {
  }

  lemma PutKeepsUntampered(env: Crypto, files: Files, bytes: Bytes)
    requires Untampered(env, files)
    ensures Untampered(env, PutFiles(env, files, bytes))
  {
  }

  /** Later puts never change what a stored hash reads as. */
  lemma {:induction false} PutAllPersists(env: Crypto, files: Files, blobs: seq<Bytes>, h: Bytes32)
    requires Stored(h) in files
    ensures Stored(h) in PutAll(env, files, blobs) && PutAll(env, files, blobs)[Stored(h)] == files[Stored(h)]
    decreases |blobs|
  {
    if blobs != [] {
      PutAllPersists(env, files, blobs[..|blobs| - 1], h);
    }
  }

  /** After any puts on an untampered store, each put blob reads back, or what reads back collides with it. */
  lemma {:induction false} GetAfterPuts(env: Crypto, files: Files, blobs: seq<Bytes>, i: nat)
    requires Untampered(env, files) && i < |blobs|
    ensures Untampered(env, PutAll(env, files, blobs))
    ensures var r := GetFile(env, PutAll(env, files, blobs), env.sha256(blobs[i]));
            r.Ok? && (r.value == blobs[i] || Collides(env, r.value, blobs[i]))
    decreases |blobs|
  {
    var n := |blobs| - 1;
    if n > 0 {
      GetAfterPuts(env, files, blobs[..n], if i < n then i else 0);
    }
    PutKeepsUntampered(env, PutAll(env, files, blobs[..n]), blobs[n]);
    if i < n {
      assert blobs[..n][i] == blobs[i];
    }
  }

  // ---- Ciphertext blobs in the store ----

  function BlobOfU64<C, B>(fhe: Fhe<C, B>, ct: C, keyVersion: u32, paramsHash: Bytes32): Result<Bytes, WorkerError> {
    match fhe.serializeU64(ct)
    case None => Err(Serialize)
    case Some(payload) => Ok(WrapBlob(CT_KIND_U64, keyVersion, paramsHash, payload))
  }

  function BlobOfBool<C, B>(fhe: Fhe<C, B>, ct: B, keyVersion: u32, paramsHash: Bytes32): Result<Bytes, WorkerError> {
    match fhe.serializeBool(ct)
    case None => Err(Serialize)
    case Some(payload) => Ok(WrapBlob(CT_KIND_BOOL, keyVersion, paramsHash, payload))
  }

  function LoadPayload(env: Crypto, files: Files, hash: Bytes32, kind: u8, keyVersion: u32, paramsHash: Bytes32)
    : Result<Bytes, WorkerError>
  {
    var blob :- GetFile(env, files, hash);
    match UnwrapBlob(blob, kind, keyVersion, paramsHash)
    case Err(e) => Err(Blob(e))
    case Ok(payload) => Ok(payload)
  }

  function LoadU64<C, B>(env: Crypto, fhe: Fhe<C, B>, files: Files, hash: Bytes32, keyVersion: u32, paramsHash: Bytes32)
    : Result<C, WorkerError>
  {
    var payload :- LoadPayload(env, files, hash, CT_KIND_U64, keyVersion, paramsHash);
    match fhe.deserializeU64(payload)
    case None => Err(Deserialize)
    case Some(c) => Ok(c)
  }

  function LoadBool<C, B>(env: Crypto, fhe: Fhe<C, B>, files: Files, hash: Bytes32, keyVersion: u32, paramsHash: Bytes32)
    : Result<B, WorkerError>
  {
    var payload :- LoadPayload(env, files, hash, CT_KIND_BOOL, keyVersion, paramsHash);
    match fhe.deserializeBool(payload)
    case None => Err(Deserialize)
    case Some(c) => Ok(c)
  }

  method StoreBool<C, B>(env: Crypto, fhe: Fhe<C, B>, store: BlobStore, ct: B, keyVersion: u32, paramsHash: Bytes32)
    returns (r: Result<Bytes32, WorkerError>)
    modifies store
    ensures match BlobOfBool(fhe, ct, keyVersion, paramsHash)
            case Ok(blob) => r == Ok(env.sha256(blob)) && store.files == PutFiles(env, old(store.files), blob)
            case Err(e) => r == Err(e) && store.files == old(store.files)
  {
    var payload := fhe.serializeBool(ct);
    if payload.None? {
      return Err(Serialize);
    }
    var blob := BuildBlob(CT_KIND_BOOL, keyVersion, paramsHash, payload.value);
    var hash := store.Put(env, blob.data);
    return Ok(hash);
  }

  method StoreU64<C, B>(env: Crypto, fhe: Fhe<C, B>, store: BlobStore, ct: C, keyVersion: u32, paramsHash: Bytes32)
    returns (r: Result<Bytes32, WorkerError>)
    modifies store
    ensures match BlobOfU64(fhe, ct, keyVersion, paramsHash)
            case Ok(blob) => r == Ok(env.sha256(blob)) && store.files == PutFiles(env, old(store.files), blob)
            case Err(e) => r == Err(e) && store.files == old(store.files)
  {
    var payload := fhe.serializeU64(ct);
    if payload.None? {
      return Err(Serialize);
    }
    var blob := BuildBlob(CT_KIND_U64, keyVersion, paramsHash, payload.value);
    var hash := store.Put(env, blob.data);
    return Ok(hash);
  }

  // ---- The circuit and the request it serves ----

  /** (balance >= amount) and (amount <= limit), on ciphertexts. */
  function EvaluatePolicy<C, B>(fhe: Fhe<C, B>, key: Bytes, balance: C, amount: C, limit: C): B {
    fhe.and(key, fhe.ge(key, balance, amount), fhe.le(key, amount, limit))
  }

  /** The policy on plaintexts. */
  predicate Policy(balance: u64, amount: u64, limit: u64) {
    balance >= amount && amount <= limit
  }

  /** The circuit computes the policy, for all 64-bit values. */
  lemma CircuitComputesPolicy<C, B>(fhe: Fhe<C, B>, key: Bytes, balance: C, amount: C, limit: C)
    requires LawfulAt(fhe, key, balance, amount, limit)
    ensures fhe.decryptBool(EvaluatePolicy(fhe, key, balance, amount, limit))
         == Policy(fhe.decryptU64(balance), fhe.decryptU64(amount), fhe.decryptU64(limit))
  {
  }

  /** Everything `process_request` does before it writes: the checks, the three loads, the circuit, the result blob. */
  function EvaluateRequest<C, B>(env: Crypto, fhe: Fhe<C, B>, files: Files, request: RequestBinding, key: Bytes)
    : Result<B, WorkerError>
  {
    if request.operation != OPERATION_POLICY_CHECK then Err(Unsupported)
    else if request.protocolVersion != PROTOCOL_VERSION then Err(Unsupported)
    else if env.sha256(key) != request.paramsHash then Err(WorkerError.Params)
    else
      var balance :- LoadU64(env, fhe, files, request.balanceHash, request.keyVersion, request.paramsHash);
      var amount :- LoadU64(env, fhe, files, request.amountHash, request.keyVersion, request.paramsHash);
      var limit :- LoadU64(env, fhe, files, request.limitHash, request.keyVersion, request.paramsHash);
      Ok(EvaluatePolicy(fhe, key, balance, amount, limit))
  }

  /** The result blob, and the binding the worker signs. */
  function Processed<C, B>(env: Crypto, fhe: Fhe<C, B>, files: Files, request: RequestBinding, key: Bytes)
    : Result<(Bytes, ResultBinding), WorkerError>
  {
    var allowed :- EvaluateRequest(env, fhe, files, request, key);
    var blob :- BlobOfBool(fhe, allowed, request.keyVersion, request.paramsHash);
    Ok((blob, ResultBinding(request, RequestDigest(env, request), env.sha256(blob), RESULT_TYPE_FHE_BOOL, CIRCUIT_POLICY_V1)))
  }

  // ---- What a load refuses ----

  /** The untampered file under `hash` is a blob of this kind, key version and parameter set around `payload`. */
  predicate StoresBlob(env: Crypto, files: Files, hash: Bytes32, kind: u8, keyVersion: u32, paramsHash: Bytes32, payload: Bytes) {
    && Stored(hash) in files && env.sha256(files[Stored(hash)]) == hash
    && files[Stored(hash)] == WrapBlob(kind, keyVersion, paramsHash, payload)
  }

  lemma LoadPayloadExact(env: Crypto, files: Files, hash: Bytes32, kind: u8, keyVersion: u32, paramsHash: Bytes32, payload: Bytes)
    ensures LoadPayload(env, files, hash, kind, keyVersion, paramsHash) == Ok(payload)
       <==> StoresBlob(env, files, hash, kind, keyVersion, paramsHash, payload)
  {
    if GetFile(env, files, hash).Ok? {
      UnwrapExact(files[Stored(hash)], kind, keyVersion, paramsHash, payload);
    }
  }

  /** A 64-bit ciphertext loads iff the file is its blob under exactly this kind, key version and parameter set. */
  lemma LoadU64Exact<C, B>(env: Crypto, fhe: Fhe<C, B>, files: Files, hash: Bytes32, keyVersion: u32, paramsHash: Bytes32, ct: C)
    ensures LoadU64(env, fhe, files, hash, keyVersion, paramsHash) == Ok(ct) <==>
              exists payload :: StoresBlob(env, files, hash, 1, keyVersion, paramsHash, payload) && fhe.deserializeU64(payload) == Some(ct)
  {
    forall payload
      ensures LoadPayload(env, files, hash, CT_KIND_U64, keyVersion, paramsHash) == Ok(payload)
         <==> StoresBlob(env, files, hash, 1, keyVersion, paramsHash, payload)
    {
      LoadPayloadExact(env, files, hash, CT_KIND_U64, keyVersion, paramsHash, payload);
    }
  }

  lemma LoadBoolExact<C, B>(env: Crypto, fhe: Fhe<C, B>, files: Files, hash: Bytes32, keyVersion: u32, paramsHash: Bytes32, ct: B)
    ensures LoadBool(env, fhe, files, hash, keyVersion, paramsHash) == Ok(ct) <==>
              exists payload :: StoresBlob(env, files, hash, 2, keyVersion, paramsHash, payload) && fhe.deserializeBool(payload) == Some(ct)
  {
    forall payload
      ensures LoadPayload(env, files, hash, CT_KIND_BOOL, keyVersion, paramsHash) == Ok(payload)
         <==> StoresBlob(env, files, hash, 2, keyVersion, paramsHash, payload)
    {
      LoadPayloadExact(env, files, hash, CT_KIND_BOOL, keyVersion, paramsHash, payload);
    }
  }

  /** An untampered blob of another kind, key version or parameter set is refused with the error that says so. */
  lemma ForeignBlobRefused<C, B>(env: Crypto, fhe: Fhe<C, B>, files: Files, hash: Bytes32, kind: u8, keyVersion: u32,
                                 paramsHash: Bytes32, payload: Bytes, keyVersion': u32, paramsHash': Bytes32)
    requires StoresBlob(env, files, hash, kind, keyVersion, paramsHash, payload)
    ensures var r := LoadU64(env, fhe, files, hash, keyVersion', paramsHash');
            && (kind != 1 ==> r == Err(Blob(BlobError.Kind)))
            && (kind == 1 && keyVersion != keyVersion' ==> r == Err(Blob(BlobError.KeyVersion)))
            && (kind == 1 && keyVersion == keyVersion' && paramsHash != paramsHash' ==> r == Err(Blob(BlobError.Params)))
  {
    WrappedReads(kind, keyVersion, paramsHash, payload, CT_KIND_U64, keyVersion', paramsHash');
  }

  /** The file under `hash` is a blob under the request's own key version and parameters. */
  ghost predicate InputStored<C, B>(env: Crypto, fhe: Fhe<C, B>, files: Files, hash: Bytes32, q: RequestBinding) {
    exists payload :: StoresBlob(env, files, hash, 1, q.keyVersion, q.paramsHash, payload) && fhe.deserializeU64(payload).Some?
  }

  /** What the worker needs of a request: support, its own key, and the three inputs under the request's own header. */
  ghost predicate Servable<C, B>(env: Crypto, fhe: Fhe<C, B>, files: Files, q: RequestBinding, key: Bytes) {
    && q.operation == 1 && q.protocolVersion == 1 && env.sha256(key) == q.paramsHash
    && InputStored(env, fhe, files, q.balanceHash, q)
    && InputStored(env, fhe, files, q.amountHash, q)
    && InputStored(env, fhe, files, q.limitHash, q)
  }

  lemma LoadsWhenStored<C, B>(env: Crypto, fhe: Fhe<C, B>, files: Files, hash: Bytes32, q: RequestBinding)
    ensures LoadU64(env, fhe, files, hash, q.keyVersion, q.paramsHash).Ok? <==> InputStored(env, fhe, files, hash, q)
  {
    var r := LoadU64(env, fhe, files, hash, q.keyVersion, q.paramsHash);
    if r.Ok? {
      LoadU64Exact(env, fhe, files, hash, q.keyVersion, q.paramsHash, r.value);
    }
    if InputStored(env, fhe, files, hash, q) {
      var payload :| StoresBlob(env, files, hash, 1, q.keyVersion, q.paramsHash, payload) && fhe.deserializeU64(payload).Some?;
      LoadU64Exact(env, fhe, files, hash, q.keyVersion, q.paramsHash, fhe.deserializeU64(payload).value);
    }
  }

  /** The worker serves a request exactly when it is servable and the evaluated result serializes. */
  lemma ServableExact<C, B>(env: Crypto, fhe: Fhe<C, B>, files: Files, q: RequestBinding, key: Bytes)
    ensures EvaluateRequest(env, fhe, files, q, key).Ok? <==> Servable(env, fhe, files, q, key)
    ensures Processed(env, fhe, files, q, key).Ok? ==> Servable(env, fhe, files, q, key)
    ensures Servable(env, fhe, files, q, key) ==>
              (Processed(env, fhe, files, q, key).Ok? <==> fhe.serializeBool(EvaluateRequest(env, fhe, files, q, key).value).Some?)
  {
    LoadsWhenStored(env, fhe, files, q.balanceHash, q);
    LoadsWhenStored(env, fhe, files, q.amountHash, q);
    LoadsWhenStored(env, fhe, files, q.limitHash, q);
  }

  /** A put adds at most its own file: every other name, and any blob already there, stays as it was. */
  lemma PutFrame(env: Crypto, files: Files, bytes: Bytes, name: Name)
    ensures var hash := env.sha256(bytes);
            var files' := PutFiles(env, files, bytes);
            && Stored(hash) in files'
            && (Stored(hash) in files ==> files' == files)
            && (Stored(hash) !in files ==> files'[Stored(hash)] == bytes && Tmp(hash) !in files')
            && (name != Stored(hash) && name != Tmp(hash) ==> (name in files' <==> name in files) && (name in files ==> files'[name] == files[name]))
  {
  }

  /** Reads the blob, checks its header, deserializes its payload. */
  method ReadU64<C, B>(env: Crypto, fhe: Fhe<C, B>, store: BlobStore, hash: Bytes32, keyVersion: u32, paramsHash: Bytes32)
    returns (r: Result<C, WorkerError>)
    ensures r == LoadU64(env, fhe, store.files, hash, keyVersion, paramsHash)
  {
    var blob := store.Get(env, hash);
    if blob.Err? {
      return Err(blob.error);
    }
    var payload := UnwrapBlob(blob.value, CT_KIND_U64, keyVersion, paramsHash);
    if payload.Err? {
      return Err(Blob(payload.error));
    }
    var ct := fhe.deserializeU64(payload.value);
    if ct.None? {
      return Err(Deserialize);
    }
    return Ok(ct.value);
  }

  /** Checks, loads, evaluates, stores and signs, in that order; nothing is stored unless everything before succeeded. */
  method ProcessRequest<C, B>(env: Crypto, fhe: Fhe<C, B>, store: BlobStore, request: RequestBinding, key: Bytes,
                              sign: Bytes -> Bytes64) returns (r: Result<(ResultBinding, Bytes64), WorkerError>)
    modifies store
    ensures match Processed(env, fhe, old(store.files), request, key)
            case Ok(done) => r == Ok((done.1, sign(EncodeResult(done.1)))) && store.files == PutFiles(env, old(store.files), done.0)
            case Err(e) => r == Err(e) && store.files == old(store.files)
  {
    if request.operation != OPERATION_POLICY_CHECK { return Err(Unsupported); }
    if request.protocolVersion != PROTOCOL_VERSION { return Err(Unsupported); }
    if env.sha256(key) != request.paramsHash { return Err(WorkerError.Params); }
    var balance := ReadU64(env, fhe, store, request.balanceHash, request.keyVersion, request.paramsHash);
    if balance.Err? { return Err(balance.error); }
    var amount := ReadU64(env, fhe, store, request.amountHash, request.keyVersion, request.paramsHash);
    if amount.Err? { return Err(amount.error); }
    var limit := ReadU64(env, fhe, store, request.limitHash, request.keyVersion, request.paramsHash);
    if limit.Err? { return Err(limit.error); }
    var allowed := EvaluatePolicy(fhe, key, balance.value, amount.value, limit.value);
    var hash := StoreBool(env, fhe, store, allowed, request.keyVersion, request.paramsHash);
    if hash.Err? { return Err(hash.error); }
    var binding := ResultBinding(request, RequestDigest(env, request), hash.value, RESULT_TYPE_FHE_BOOL, CIRCUIT_POLICY_V1);
    var message := BuildResult(binding);
    return Ok((binding, sign(message.data)));
  }

  /** The store holds a blob of `ct` under `hash`, readable. */
  predicate Holds<C(==), B>(env: Crypto, fhe: Fhe<C, B>, files: Files, hash: Bytes32, keyVersion: u32, paramsHash: Bytes32, ct: C) {
    LoadU64(env, fhe, files, hash, keyVersion, paramsHash) == Ok(ct)
  }

  /**
   * With the three inputs in the store, the worker serves exactly the requests of the supported operation
   * and protocol version whose parameters commit to its own key, provided the result serializes; the
   * result it signs is of the request it was given, and its hash is that of the blob of the policy evaluation.
   */
  lemma ServesExactly<C, B>(env: Crypto, fhe: Fhe<C, B>, files: Files, q: RequestBinding, key: Bytes, balance: C, amount: C, limit: C)
    requires Holds(env, fhe, files, q.balanceHash, q.keyVersion, q.paramsHash, balance)
    requires Holds(env, fhe, files, q.amountHash, q.keyVersion, q.paramsHash, amount)
    requires Holds(env, fhe, files, q.limitHash, q.keyVersion, q.paramsHash, limit)
    ensures var r := Processed(env, fhe, files, q, key);
            var blob := BlobOfBool(fhe, EvaluatePolicy(fhe, key, balance, amount, limit), q.keyVersion, q.paramsHash);
            && (r.Ok? <==> q.operation == OPERATION_POLICY_CHECK && q.protocolVersion == PROTOCOL_VERSION
                           && env.sha256(key) == q.paramsHash && blob.Ok?)
            && (r.Ok? ==> r.value.0 == blob.value && r.value.1.request == q
                          && r.value.1.requestDigest == RequestDigest(env, q)
                          && r.value.1.resultHash == env.sha256(blob.value)
                          && r.value.1.resultType == RESULT_TYPE_FHE_BOOL && r.value.1.circuitId == CIRCUIT_POLICY_V1)
  {
  }
}
