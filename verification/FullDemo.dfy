/**
 * The whole local demo, from encrypted inputs to the decrypted answer: the store's run beside the
 * coordinator's run, and a concrete instance in which every signature verifies.
 */
module FullDemo {
  import opened Types
  import opened LittleEndian
  import opened Protocol
  import opened Ed25519
  import opened State
  import opened Coordinator
  import opened Invariant
  import opened Runs
  import opened Safety
  import opened Worker
  import opened EndToEnd
  import opened Demo

  /** The store sees the three encrypted inputs, then the worker serves the submitted request. */
  function StoreRun<C>(env: Crypto, s: Setup, slot: u64, key: Bytes, x: Inputs<C>): seq<StoreAction>
    requires slot + DEMO_LIFETIME <= U64_MAX
  {
    [PutBlob(x.balanceBlob), PutBlob(x.amountBlob), PutBlob(x.limitBlob), Serve(DemoBinding(env, s, slot).request, key)]
  }

  /** The result blob that the worker stores. */
  function ResultBlob<C, B>(fhe: Fhe<C, B>, s: Setup, key: Bytes, x: Inputs<C>): Result<Bytes, WorkerError> {
    BlobOfBool(fhe, EvaluatePolicy(fhe, key, x.balance, x.amount, x.limit), 1, s.paramsHash)
  }

  /** The setup's hashes are those of the encrypted inputs, the evaluation key and the evaluated result. */
  ghost predicate Encrypted<C, B>(env: Crypto, fhe: Fhe<C, B>, s: Setup, key: Bytes, x: Inputs<C>) {
    && Commits64(env, fhe, s.balanceHash, 1, s.paramsHash, x.balance, x.balanceBlob)
    && Commits64(env, fhe, s.amountHash, 1, s.paramsHash, x.amount, x.amountBlob)
    && Commits64(env, fhe, s.limitHash, 1, s.paramsHash, x.limit, x.limitBlob)
    && env.sha256(key) == s.paramsHash
    && ResultBlob(fhe, s, key, x).Ok? && s.resultHash == env.sha256(ResultBlob(fhe, s, key, x).value)
  }

  function InputBlobs<C>(x: Inputs<C>): set<Bytes> {
    {x.balanceBlob, x.amountBlob, x.limitBlob}
  }

  /** The one signature that the demo's operator makes. */
  function DemoSignature(env: Crypto, s: Setup, slot: u64): Signature
    requires slot + DEMO_LIFETIME <= U64_MAX
  {
    Signature(s.operator, EncodeResult(DemoBinding(env, s, slot)), s.signature)
  }

  // ---- The store's side ----

  /** After the puts each input loads as its ciphertext, unless two of the blobs collide. */
  lemma InputLoads<C, B>(env: Crypto, fhe: Fhe<C, B>, blobs: seq<Bytes>, i: nat, hash: Bytes32,
                         keyVersion: u32, paramsHash: Bytes32, ct: C)
    requires RoundTripsU64(fhe, ct) && i < |blobs| && Commits64(env, fhe, hash, keyVersion, paramsHash, ct, blobs[i])
    ensures LoadU64(env, fhe, PutAll(env, map[], blobs), hash, keyVersion, paramsHash) == Ok(ct)
         || CollisionAmong(env, set b | b in blobs)
  {
    var files := PutAll(env, map[], blobs);
    GetAfterPuts(env, map[], blobs, i);
    PutAllOrigin(env, blobs, hash);
    var v := GetFile(env, files, hash).value;
    assert v in (set b | b in blobs) && blobs[i] in (set b | b in blobs);
    if v == blobs[i] {
      U64Loads(env, fhe, files, hash, ct, blobs[i], keyVersion, paramsHash);
    }
  }

  /** Puts offer their blobs, in order. */
  lemma {:induction false} PutsOffer(env: Crypto, offers: (Files, StoreAction) -> seq<Bytes>, actions: seq<StoreAction>, n: nat)
    requires n <= |actions| && forall k :: 0 <= k < n ==> actions[k].PutBlob?
    requires forall files, b :: offers(files, PutBlob(b)) == [b]
    ensures |OfferedBy(env, offers, actions, n)| == n
    ensures forall k :: 0 <= k < n ==> OfferedBy(env, offers, actions, n)[k] == actions[k].bytes
  {
    if n > 0 {
      PutsOffer(env, offers, actions, n - 1);
      assert actions[n - 1] == PutBlob(actions[n - 1].bytes);
    }
  }

  /** The blobs the worker finds when it serves. */
  lemma OfferedInputs<C, B>(env: Crypto, fhe: Fhe<C, B>, s: Setup, slot: u64, key: Bytes, x: Inputs<C>)
    requires slot + DEMO_LIFETIME <= U64_MAX
    ensures Offered(env, fhe, StoreRun(env, s, slot, key, x), 3) == [x.balanceBlob, x.amountBlob, x.limitBlob]
  {
    PutsOffer(env, (files, action) => Offers(env, fhe, files, action), StoreRun(env, s, slot, key, x), 3);
  }

  /** The request that the third transaction leaves binds itself by its stored digest. */
  lemma DemoDigest(env: Crypto, s: Setup, slot: u64)
    requires slot + DEMO_LIFETIME <= U64_MAX
    ensures DemoBinding(env, s, slot).requestDigest == RequestDigest(env, DemoBinding(env, s, slot).request)
  {
    var r := DemoRequest(env, s, slot);
    assert RequestBindingOf(DemoConfig(s), r, RequestKey(env, s))
        == RequestBindingOf(DemoConfig(s), r.(requestDigest := ZERO32), RequestKey(env, s));
  }

  /** The worker serves the demo request and signs the very binding the chain will verify, unless two inputs collide. */
  lemma DemoServes<C, B>(env: Crypto, fhe: Fhe<C, B>, key: Bytes, s: Setup, slot: u64, x: Inputs<C>)
    requires slot + DEMO_LIFETIME <= U64_MAX && LawfulAt(fhe, key, x.balance, x.amount, x.limit) && Encrypted(env, fhe, s, key, x)
    ensures ServedAt(env, fhe, StoreRun(env, s, slot, key, x), 3, EncodeResult(DemoBinding(env, s, slot)))
         || CollisionAmong(env, InputBlobs(x))
  {
    var actions := StoreRun(env, s, slot, key, x);
    var b := DemoBinding(env, s, slot);
    var blobs := [x.balanceBlob, x.amountBlob, x.limitBlob];
    OfferedInputs(env, fhe, s, slot, key, x);
    assert (set b | b in blobs) == InputBlobs(x);
    InputLoads(env, fhe, blobs, 0, s.balanceHash, 1, s.paramsHash, x.balance);
    InputLoads(env, fhe, blobs, 1, s.amountHash, 1, s.paramsHash, x.amount);
    InputLoads(env, fhe, blobs, 2, s.limitHash, 1, s.paramsHash, x.limit);
    if !CollisionAmong(env, InputBlobs(x)) {
      var files := StoreAt(env, fhe, actions, 3);
      ServesExactly(env, fhe, files, b.request, key, x.balance, x.amount, x.limit);
      DemoDigest(env, s, slot);
      assert Processed(env, fhe, files, b.request, key).value.1 == b;
    }
  }

  // ---- The chain's side ----

  /** Any signature the demo's history accepted is over the demo's one message, under the demo's operator. */
  lemma DemoAccepted(env: Crypto, s: Setup, slot: u64, w: World, a: Signature)
    requires Sensible(env, s, slot) && WorldInv(env, w) && w.ledger == Ledger4(env, s, slot) && Accepted(w.history, a)
    ensures a.operator == s.operator && a.message == EncodeResult(DemoBinding(env, s, slot))
  {
    var i: nat, k :| SettledBy(w.history, i, k, a.operator, a.message, a.bytes);
    assert EntryOk(env, w, i);
    assert k == RequestKey(env, s);
    var r, c := RequestAt(w.ledger, k), DemoConfig(s);
    assert ConfigAt(w.ledger, ConfigKey(env, s)) == c;
    assert RequestBindingOf(c, r, k) == RequestBindingOf(c, DemoRequest(env, s, slot), k);
    assert StoredBinding(c, r, k) == DemoBinding(env, s, slot);
    var j :| 0 <= j < |w.history| && Sets(w.history[j], ConfigKey(env, s), 1, a.operator);
    assert EntryOk(env, w, j);
  }

  // ---- The demo ----

  /** The demo's operator is honest and nothing is forged, unless two inputs collide. */
  lemma DemoHonest<C, B>(env: Crypto, fhe: Fhe<C, B>, key: Bytes, s: Setup, slot: u64, x: Inputs<C>, w: World)
    requires Sensible(env, s, slot) && LawfulAt(fhe, key, x.balance, x.amount, x.limit) && Encrypted(env, fhe, s, key, x)
    requires WorldInv(env, w) && w.ledger == Ledger4(env, s, slot)
    ensures Unforged(w.history, {DemoSignature(env, s, slot)})
    ensures HonestOperators(env, fhe, StoreRun(env, s, slot, key, x), w.history, {DemoSignature(env, s, slot)})
         || CollisionAmong(env, InputBlobs(x))
  {
    var made := {DemoSignature(env, s, slot)};
    forall a | Accepted(w.history, a)
      ensures exists t :: t in made && t.operator == a.operator && t.message == a.message
    {
      DemoAccepted(env, s, slot, w, a);
      assert DemoSignature(env, s, slot) in made;
    }
    DemoServes(env, fhe, key, s, slot, x);
  }

  /**
   * The demo end to end: its four transactions finalize the request, the premises of
   * `FinalizedMeansPolicy` hold of the run with the one signature the operator made, and the finalized
   * hash loads and decrypts to the policy of the three plaintexts; or a SHA-256 collision is exhibited.
   */
  lemma DemoDecrypts<C, B>(env: Crypto, fhe: Fhe<C, B>, key: Bytes, s: Setup, slot: u64, data: Bytes, x: Inputs<C>)
    requires Sensible(env, s, slot) && LawfulAt(fhe, key, x.balance, x.amount, x.limit) && Encrypted(env, fhe, s, key, x)
    ensures var w := Run(env, Genesis(slot), DemoRun(env, s, slot, data));
            var actions := StoreRun(env, s, slot, key, x);
            var made := {DemoSignature(env, s, slot)};
            var loaded := LoadBool(env, fhe, StoreAt(env, fhe, actions, 4), s.resultHash, 1, s.paramsHash);
            && Reachable(env, w) && w.ledger == Ledger4(env, s, slot)
            && Unforged(w.history, made)
            && (HonestOperators(env, fhe, actions, w.history, made) || CollisionAmong(env, InputBlobs(x)))
            && ((loaded.Ok? && fhe.decryptBool(loaded.value)
                               == Policy(fhe.decryptU64(x.balance), fhe.decryptU64(x.amount), fhe.decryptU64(x.limit)))
                || CollisionAmong(env, Exhibit(env, fhe, actions, key, x)))
  {
    var w := Run(env, Genesis(slot), DemoRun(env, s, slot, data));
    var actions := StoreRun(env, s, slot, key, x);
    DemoFinalizes(env, s, slot, data);
    ReachableInv(env, w);
    DemoHonest(env, fhe, key, s, slot, x, w);
    if CollisionAmong(env, InputBlobs(x)) {
      CollisionGrows(env, InputBlobs(x), Exhibit(env, fhe, actions, key, x));
    } else {
      DemoInputs(env, fhe, s, slot, key, x);
      FinalizedMeansPolicy(env, fhe, key, actions, {DemoSignature(env, s, slot)}, w, RequestKey(env, s), x);
    }
  }

  /** The finalized request's hashes are those of the encrypted inputs. */
  lemma DemoInputs<C, B>(env: Crypto, fhe: Fhe<C, B>, s: Setup, slot: u64, key: Bytes, x: Inputs<C>)
    requires Sensible(env, s, slot) && Encrypted(env, fhe, s, key, x)
    ensures var l, k := Ledger4(env, s, slot), RequestKey(env, s);
            && IsRequest(l, k) && IsConfig(l, RequestAt(l, k).config)
            && InputsCommitted(env, fhe, RequestBindingOf(ConfigAt(l, RequestAt(l, k).config), RequestAt(l, k), k), x)
  {
    assert ConfigAt(Ledger4(env, s, slot), ConfigKey(env, s)) == DemoConfig(s);
  }

  // ---- A concrete instance ----

  /** Length and payload, cut and padded to 32 bytes: tells the instance's blobs apart. */
  function PlainHash(b: Bytes): Bytes32 {
    [|b| % 256] + seq(31, i requires 0 <= i < 31 => if 41 + i < |b| then b[41 + i] else 0)
  }

  /** 32 times the first byte of the first seed: tells configs, accounts and requests apart. */
  function PlainAddress(seeds: seq<Bytes>): PdaKey {
    var tag := if |seeds| > 0 && |seeds[0]| > 0 && seeds[0][0] > 0 then seeds[0][0] else 1;
    var bytes: Bytes32 := seq(32, i => tag);
    assert bytes[0] != ZERO32[0];
    Pubkey(bytes)
  }

  /** As with a key whose holder can sign anything, every message has a signature that verifies. */
  function PlainCrypto(): Crypto {
    Crypto(PlainHash, PlainAddress, (key, message, signature) => true)
  }

  /** A library whose ciphertexts are their plaintexts. */
  function PlainFhe(): Fhe<u64, bool> {
    Fhe((c: u64) => Some(U64Le(c)),
        (s: Bytes) => if |s| == 8 then Some(U64FromLe(s)) else None,
        (b: bool) => Some(if b then [1] else [0]),
        (s: Bytes) => if s == [1] then Some(true) else if s == [0] then Some(false) else None,
        (key: Bytes, x: u64, y: u64) => x >= y,
        (key: Bytes, x: u64, y: u64) => x <= y,
        (key: Bytes, p: bool, q: bool) => p && q,
        (c: u64) => c,
        (b: bool) => b)
  }

  lemma PlainLawful(key: Bytes, balance: u64, amount: u64, limit: u64)
    ensures LawfulAt(PlainFhe(), key, balance, amount, limit)
  {
    U64RoundTrip(balance);
    U64RoundTrip(amount);
    U64RoundTrip(limit);
  }

  const PLAIN_KEY: Bytes := [7]

  function PlainBlob(value: u64): Bytes {
    WrapBlob(CT_KIND_U64, 1, PlainHash(PLAIN_KEY), U64Le(value))
  }

  function PlainInputs(balance: u64, amount: u64, limit: u64): Inputs<u64> {
    Inputs(balance, amount, limit, PlainBlob(balance), PlainBlob(amount), PlainBlob(limit))
  }

  function PlainResultBlob(balance: u64, amount: u64, limit: u64): Bytes {
    WrapBlob(CT_KIND_BOOL, 1, PlainHash(PLAIN_KEY), if Policy(balance, amount, limit) then [1] else [0])
  }

  function PlainSetup(balance: u64, amount: u64, limit: u64): Setup {
    Setup(Pubkey(ONES32), Pubkey(ONES32), Pubkey(ONES32), Pubkey(ONES32), ZERO32, PlainHash(PLAIN_KEY),
          PlainHash(PlainBlob(balance)), PlainHash(PlainBlob(amount)), PlainHash(PlainBlob(limit)),
          PlainHash(PlainResultBlob(balance, amount, limit)), seq(64, i => 0))
  }

  lemma PlainBlobsDiffer(v: u64, v': u64)
    requires PlainHash(PlainBlob(v)) == PlainHash(PlainBlob(v'))
    ensures PlainBlob(v) == PlainBlob(v')
  {
    var b, b' := PlainBlob(v), PlainBlob(v');
    assert b[41..] == U64Le(v) && b'[41..] == U64Le(v');
    forall i | 0 <= i < 8
      ensures U64Le(v)[i] == U64Le(v')[i]
    {
      assert PlainHash(b)[1 + i] == b[41 + i] == U64Le(v)[i];
      assert PlainHash(b')[1 + i] == b'[41 + i] == U64Le(v')[i];
    }
  }

  lemma PlainNoCollision(balance: u64, amount: u64, limit: u64)
    ensures !CollisionAmong(PlainCrypto(), {PlainBlob(balance), PlainBlob(amount), PlainBlob(limit)})
  {
    var blobs := {PlainBlob(balance), PlainBlob(amount), PlainBlob(limit)};
    forall a, b | a in blobs && b in blobs
      ensures !Collides(PlainCrypto(), a, b)
    {
      var v := if a == PlainBlob(balance) then balance else if a == PlainBlob(amount) then amount else limit;
      var v' := if b == PlainBlob(balance) then balance else if b == PlainBlob(amount) then amount else limit;
      if PlainHash(a) == PlainHash(b) {
        PlainBlobsDiffer(v, v');
      }
    }
  }

  lemma PlainEncrypted(balance: u64, amount: u64, limit: u64)
    ensures Encrypted(PlainCrypto(), PlainFhe(), PlainSetup(balance, amount, limit), PLAIN_KEY, PlainInputs(balance, amount, limit))
  {
  }

  lemma PlainSensible(balance: u64, amount: u64, limit: u64)
    ensures Sensible(PlainCrypto(), PlainSetup(balance, amount, limit), 0)
  {
    var env, s := PlainCrypto(), PlainSetup(balance, amount, limit);
    assert s.operator.bytes[0] != ZERO32[0];
    assert s.paramsHash[0] == 1 && s.balanceHash[0] == 49 && s.amountHash[0] == 49 && s.limitHash[0] == 49 && s.resultHash[0] == 42;
    assert ConfigKey(env, s).bytes[0] == 0x63 && AccountKey(env, s).bytes[0] == 0x61 && RequestKey(env, s).bytes[0] == 0x72;
  }

  /** Everything `FinalizedMeansPolicy` asks of a Finalized request `k`. */
  ghost predicate Premises<C, B>(env: Crypto, fhe: Fhe<C, B>, key: Bytes, actions: seq<StoreAction>, made: set<Signature>,
                                             w: World, k: Pubkey, x: Inputs<C>)
  {
    && Reachable(env, w) && Unforged(w.history, made) && HonestOperators(env, fhe, actions, w.history, made)
    && IsRequest(w.ledger, k) && RequestAt(w.ledger, k).status == Finalized && IsConfig(w.ledger, RequestAt(w.ledger, k).config)
    && InputsCommitted(env, fhe, RequestBindingOf(ConfigAt(w.ledger, RequestAt(w.ledger, k).config), RequestAt(w.ledger, k), k), x)
    && LawfulAt(fhe, key, x.balance, x.amount, x.limit) && env.sha256(key) == RequestAt(w.ledger, k).paramsHash
  }

  /** Every message whatsoever has a verifying signature under the current operator of request `k`'s config. */
  ghost predicate EveryMessageVerifies(env: Crypto, l: Ledger, k: Pubkey)
    requires IsRequest(l, k) && IsConfig(l, RequestAt(l, k).config)
  {
    forall message :: Signed(env, ConfigAt(l, RequestAt(l, k).config).operator, message)
  }

  /** The premises hold of every demo run whose inputs do not collide, whatever else its operator's key could sign. */
  lemma DemoPremises<C, B>(env: Crypto, fhe: Fhe<C, B>, key: Bytes, s: Setup, slot: u64, data: Bytes, x: Inputs<C>)
    requires Sensible(env, s, slot) && LawfulAt(fhe, key, x.balance, x.amount, x.limit) && Encrypted(env, fhe, s, key, x)
    requires !CollisionAmong(env, InputBlobs(x))
    requires forall message :: Signed(env, s.operator, message)
    ensures var w := Run(env, Genesis(slot), DemoRun(env, s, slot, data));
            && Premises(env, fhe, key, StoreRun(env, s, slot, key, x), {DemoSignature(env, s, slot)}, w, RequestKey(env, s), x)
            && EveryMessageVerifies(env, w.ledger, RequestKey(env, s))
  {
    DemoDecrypts(env, fhe, key, s, slot, data, x);
    DemoInputs(env, fhe, s, slot, key, x);
    assert ConfigAt(Ledger4(env, s, slot), ConfigKey(env, s)) == DemoConfig(s);
  }

  lemma PlainVerifies(operator: Pubkey)
    ensures forall message :: Signed(PlainCrypto(), operator, message)
  {
    forall message
      ensures Signed(PlainCrypto(), operator, message)
    {
      var signature: Bytes64 := seq(64, i => 0);
      assert PlainCrypto().ed25519Verify(operator.bytes, message, signature);
    }
  }

  /**
   * The premises of `FinalizedMeansPolicy` hold of a concrete run with a Finalized request although every
   * message has a verifying signature under the operator's key: they speak of the signatures that occurred.
   */
  lemma PremisesHold(balance: u64, amount: u64, limit: u64)
    returns (env: Crypto, fhe: Fhe<u64, bool>, key: Bytes, actions: seq<StoreAction>, made: set<Signature>, w: World, k: Pubkey,
             x: Inputs<u64>)
    ensures Premises(env, fhe, key, actions, made, w, k, x) && EveryMessageVerifies(env, w.ledger, k)
    ensures fhe.decryptU64(x.balance) == balance && fhe.decryptU64(x.amount) == amount && fhe.decryptU64(x.limit) == limit
  {
    var s := PlainSetup(balance, amount, limit);
    env, fhe, key, x := PlainCrypto(), PlainFhe(), PLAIN_KEY, PlainInputs(balance, amount, limit);
    PlainLawful(key, balance, amount, limit);
    PlainNoCollision(balance, amount, limit);
    PlainEncrypted(balance, amount, limit);
    PlainSensible(balance, amount, limit);
    PlainVerifies(s.operator);
    DemoPremises(env, fhe, key, s, 0, [], x);
    actions, made := StoreRun(env, s, 0, key, x), {DemoSignature(env, s, 0)};
    w, k := Run(env, Genesis(0), DemoRun(env, s, 0, [])), RequestKey(env, s);
  }
}
