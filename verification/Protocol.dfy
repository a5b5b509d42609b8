/** The canonical request and result encodings, their decoders, and the ciphertext blob wrapper. */
module Protocol {
  import opened Types
  import opened LittleEndian

  const PROTOCOL_VERSION: u16 := 1
  const OPERATION_POLICY_CHECK: u16 := 1
  const CIRCUIT_POLICY_V1: u16 := 1
  const RESULT_TYPE_FHE_BOOL: u8 := 1

  const CT_KIND_U64: u8 := 1
  const CT_KIND_BOOL: u8 := 2

  /** "config", "account" and "request" in ASCII. */
  const SEED_CONFIG: Bytes := [0x63, 0x6f, 0x6e, 0x66, 0x69, 0x67]
  const SEED_ACCOUNT: Bytes := [0x61, 0x63, 0x63, 0x6f, 0x75, 0x6e, 0x74]
  const SEED_REQUEST: Bytes := [0x72, 0x65, 0x71, 0x75, 0x65, 0x73, 0x74]

  /** "SOLFHE-CTL-REQ-V1" and "SOLFHE-CTL-RES-V1" in ASCII. */
  const DOMAIN_REQUEST: Bytes := [0x53, 0x4f, 0x4c, 0x46, 0x48, 0x45, 0x2d, 0x43, 0x54, 0x4c, 0x2d, 0x52, 0x45, 0x51, 0x2d, 0x56, 0x31]
  const DOMAIN_RESULT: Bytes := [0x53, 0x4f, 0x4c, 0x46, 0x48, 0x45, 0x2d, 0x43, 0x54, 0x4c, 0x2d, 0x52, 0x45, 0x53, 0x2d, 0x56, 0x31]

  /** "CTL1" in ASCII. */
  const BLOB_MAGIC: Bytes := [0x43, 0x54, 0x4c, 0x31]

  datatype RequestBinding = RequestBinding(
    protocolVersion: u16,
    domainId: Bytes32,
    programId: Bytes32,
    config: Bytes32,
    mint: Bytes32,
    confidentialAccount: Bytes32,
    requestPda: Bytes32,
    operation: u16,
    balanceHash: Bytes32,
    amountHash: Bytes32,
    limitHash: Bytes32,
    paramsHash: Bytes32,
    stateVersion: u64,
    requestNonce: u64,
    keyVersion: u32,
    operatorEpoch: u64,
    expirySlot: u64)

  datatype ResultBinding = ResultBinding(
    request: RequestBinding,
    requestDigest: Bytes32,
    resultHash: Bytes32,
    resultType: u8,
    circuitId: u16)

  predicate IsZeroHash(hash: Bytes32) {
    hash == ZERO32
  }

  // ---- The encodings as functions ----

  /** Protocol version, domain, program and the four addresses: 194 bytes. */
  function Ids(b: RequestBinding): (s: Bytes)
    ensures |s| == 194
  {
    U16Le(b.protocolVersion) + b.domainId + b.programId + b.config + b.mint + b.confidentialAccount + b.requestPda
  }

  /** Operation and the four committed hashes: 130 bytes. */
  function Commitments(b: RequestBinding): (s: Bytes)
    ensures |s| == 130
  {
    U16Le(b.operation) + b.balanceHash + b.amountHash + b.limitHash + b.paramsHash
  }

  /** Versions, nonce, epoch and expiry: 36 bytes. */
  function Counters(b: RequestBinding): (s: Bytes)
    ensures |s| == 36
  {
    U64Le(b.stateVersion) + U64Le(b.requestNonce) + U32Le(b.keyVersion) + U64Le(b.operatorEpoch) + U64Le(b.expirySlot)
  }

  function Body(b: RequestBinding): (s: Bytes)
    ensures |s| == 360
  {
    Ids(b) + Commitments(b) + Counters(b)
  }

  /** What a result adds after the request body: 67 bytes. */
  function Tail(b: ResultBinding): (s: Bytes)
    ensures |s| == 67
  {
    b.requestDigest + b.resultHash + [b.resultType] + U16Le(b.circuitId)
  }

  const REQUEST_LENGTH := 377
  const RESULT_LENGTH := 444

  function EncodeRequest(b: RequestBinding): Bytes {
    DOMAIN_REQUEST + Body(b)
  }

  function EncodeResult(b: ResultBinding): Bytes {
    DOMAIN_RESULT + Body(b.request) + Tail(b)
  }

  function RequestDigest(env: Crypto, b: RequestBinding): Bytes32 {
    env.sha256(EncodeRequest(b))
  }

  function ResultDigest(env: Crypto, b: ResultBinding): Bytes32 {
    env.sha256(EncodeResult(b))
  }

  // ---- The decoders ----

  /** Reads the fields off their fixed offsets in a 360-byte body. */
  function DecodeBody(s: Bytes): RequestBinding
    requires |s| == 360
  {
    var ids, com, cnt := s[..194], s[194..324], s[324..];
    RequestBinding(
      U16FromLe(ids[..2]), ids[2..34], ids[34..66], ids[66..98], ids[98..130], ids[130..162], ids[162..194],
      U16FromLe(com[..2]), com[2..34], com[34..66], com[66..98], com[98..130],
      U64FromLe(cnt[..8]), U64FromLe(cnt[8..16]), U32FromLe(cnt[16..20]), U64FromLe(cnt[20..28]), U64FromLe(cnt[28..36]))
  }

  function DecodeRequest(s: Bytes): Option<RequestBinding> {
    if |s| != REQUEST_LENGTH || s[..17] != DOMAIN_REQUEST then None else Some(DecodeBody(s[17..]))
  }

  function DecodeResult(s: Bytes): Option<ResultBinding> {
    if |s| != RESULT_LENGTH || s[..17] != DOMAIN_RESULT then
      None
    else
      var tail := s[377..];
      Some(ResultBinding(DecodeBody(s[17..377]), tail[..32], tail[32..64], tail[64], U16FromLe(tail[65..67])))
  }

  lemma IdsSlices(b: RequestBinding)
    ensures var s := Ids(b);
            && s[..2] == U16Le(b.protocolVersion) && s[2..34] == b.domainId && s[34..66] == b.programId
            && s[66..98] == b.config && s[98..130] == b.mint && s[130..162] == b.confidentialAccount
            && s[162..194] == b.requestPda
  {
  }

  lemma CommitmentsSlices(b: RequestBinding)
    ensures var s := Commitments(b);
            && s[..2] == U16Le(b.operation) && s[2..34] == b.balanceHash && s[34..66] == b.amountHash
            && s[66..98] == b.limitHash && s[98..130] == b.paramsHash
  {
  }

  lemma CountersSlices(b: RequestBinding)
    ensures var s := Counters(b);
            && s[..8] == U64Le(b.stateVersion) && s[8..16] == U64Le(b.requestNonce) && s[16..20] == U32Le(b.keyVersion)
            && s[20..28] == U64Le(b.operatorEpoch) && s[28..36] == U64Le(b.expirySlot)
  {
  }

  lemma DecodeOfBody(b: RequestBinding)
    ensures DecodeBody(Body(b)) == b
  {
    var s := Body(b);
    assert s[..194] == Ids(b) && s[194..324] == Commitments(b) && s[324..] == Counters(b);
    IdsSlices(b);
    CommitmentsSlices(b);
    CountersSlices(b);
    U16RoundTrip(b.protocolVersion);
    U16RoundTrip(b.operation);
    U64RoundTrip(b.stateVersion);
    U64RoundTrip(b.requestNonce);
    U32RoundTrip(b.keyVersion);
    U64RoundTrip(b.operatorEpoch);
    U64RoundTrip(b.expirySlot);
  }

  lemma IdsOfDecode(s: Bytes)
    requires |s| == 360
    ensures Ids(DecodeBody(s)) == s[..194]
  {
    var ids := s[..194];
    ToFromLe(ids[..2]);
    assert ids == ids[..2] + ids[2..34] + ids[34..66] + ids[66..98] + ids[98..130] + ids[130..162] + ids[162..194];
  }

  lemma CommitmentsOfDecode(s: Bytes)
    requires |s| == 360
    ensures Commitments(DecodeBody(s)) == s[194..324]
  {
    var com := s[194..324];
    ToFromLe(com[..2]);
    assert com == com[..2] + com[2..34] + com[34..66] + com[66..98] + com[98..130];
  }

  lemma U32Back(s: Bytes)
    requires |s| == 4
    ensures U32Le(U32FromLe(s)) == s
  {
    ToFromLe(s);
  }

  lemma U64Back(s: Bytes)
    requires |s| == 8
    ensures U64Le(U64FromLe(s)) == s
  {
    ToFromLe(s);
  }

  lemma FiveParts(s: Bytes)
    requires |s| == 36
    ensures s == s[..8] + s[8..16] + s[16..20] + s[20..28] + s[28..36]
  {
  }

  lemma CountersOfDecode(s: Bytes)
    requires |s| == 360
    ensures Counters(DecodeBody(s)) == s[324..]
  {
    var cnt := s[324..];
    U64Back(cnt[..8]);
    U64Back(cnt[8..16]);
    U32Back(cnt[16..20]);
    U64Back(cnt[20..28]);
    U64Back(cnt[28..36]);
    FiveParts(cnt);
  }

  lemma BodyOfDecode(s: Bytes)
    requires |s| == 360
    ensures Body(DecodeBody(s)) == s
  {
    IdsOfDecode(s);
    CommitmentsOfDecode(s);
    CountersOfDecode(s);
    assert s == s[..194] + s[194..324] + s[324..];
  }

  /** Every request encodes to exactly 377 bytes under its own domain, and decodes to itself. */
  lemma RequestRoundTrip(b: RequestBinding)
    ensures |EncodeRequest(b)| == REQUEST_LENGTH
    ensures EncodeRequest(b)[..17] == DOMAIN_REQUEST
    ensures DecodeRequest(EncodeRequest(b)) == Some(b)
  {
    assert EncodeRequest(b)[17..] == Body(b);
    DecodeOfBody(b);
  }

  /** Every result encodes to exactly 444 bytes under its own domain, and decodes to itself. */
  lemma ResultRoundTrip(b: ResultBinding)
    ensures |EncodeResult(b)| == RESULT_LENGTH
    ensures EncodeResult(b)[..17] == DOMAIN_RESULT
    ensures DecodeResult(EncodeResult(b)) == Some(b)
  {
    var s := EncodeResult(b);
    assert s[17..377] == Body(b.request) && s[377..] == Tail(b);
    assert Tail(b)[..32] == b.requestDigest && Tail(b)[32..64] == b.resultHash && Tail(b)[65..67] == U16Le(b.circuitId);
    DecodeOfBody(b.request);
    U16RoundTrip(b.circuitId);
  }

  /** The decoder accepts exactly the encodings: it returns `b` on `s` iff `s` is the encoding of `b`. */
  lemma DecodeRequestExact(s: Bytes, b: RequestBinding)
    ensures DecodeRequest(s) == Some(b) <==> s == EncodeRequest(b)
  {
    RequestRoundTrip(b);
    if DecodeRequest(s) == Some(b) {
      BodyOfDecode(s[17..]);
      assert s == s[..17] + s[17..];
    }
  }

  lemma DecodeResultExact(s: Bytes, b: ResultBinding)
    ensures DecodeResult(s) == Some(b) <==> s == EncodeResult(b)
  {
    ResultRoundTrip(b);
    if DecodeResult(s) == Some(b) {
      BodyOfDecode(s[17..377]);
      var tail := s[377..];
      ToFromLe(tail[65..67]);
      assert Tail(b) == tail;
      assert s == s[..17] + s[17..377] + tail;
    }
  }

  /** A byte string is some request's encoding exactly when it has the length and the domain prefix. */
  lemma RequestImage(s: Bytes)
    ensures (exists b :: s == EncodeRequest(b)) <==> |s| == REQUEST_LENGTH && s[..17] == DOMAIN_REQUEST
  {
    if |s| == REQUEST_LENGTH && s[..17] == DOMAIN_REQUEST {
      DecodeRequestExact(s, DecodeRequest(s).value);
    }
    forall b | s == EncodeRequest(b)
      ensures |s| == REQUEST_LENGTH && s[..17] == DOMAIN_REQUEST
    {
      RequestRoundTrip(b);
    }
  }

  lemma ResultImage(s: Bytes)
    ensures (exists b :: s == EncodeResult(b)) <==> |s| == RESULT_LENGTH && s[..17] == DOMAIN_RESULT
  {
    if |s| == RESULT_LENGTH && s[..17] == DOMAIN_RESULT {
      DecodeResultExact(s, DecodeResult(s).value);
    }
    forall b | s == EncodeResult(b)
      ensures |s| == RESULT_LENGTH && s[..17] == DOMAIN_RESULT
    {
      ResultRoundTrip(b);
    }
  }

  lemma EncodeRequestInjective(a: RequestBinding, b: RequestBinding)
    requires EncodeRequest(a) == EncodeRequest(b)
    ensures a == b
  {
    RequestRoundTrip(a);
    RequestRoundTrip(b);
  }

  /** Injective in every field, the free `requestDigest` included. */
  lemma EncodeResultInjective(a: ResultBinding, b: ResultBinding)
    requires EncodeResult(a) == EncodeResult(b)
    ensures a == b
  {
    ResultRoundTrip(a);
    ResultRoundTrip(b);
  }

  /** No request encoding is a prefix of a result encoding, nor the other way round. */
  lemma DomainsSeparate(a: RequestBinding, r: ResultBinding)
    ensures !(EncodeRequest(a) <= EncodeResult(r))
    ensures !(EncodeResult(r) <= EncodeRequest(a))
  {
    RequestRoundTrip(a);
    ResultRoundTrip(r);
    assert DOMAIN_REQUEST[13] != DOMAIN_RESULT[13];
    assert EncodeRequest(a)[13] == EncodeRequest(a)[..17][13];
    assert EncodeResult(r)[13] == EncodeResult(r)[..17][13];
  }

  /** Equal request digests mean equal requests, or the two encodings are a SHA-256 collision. */
  lemma RequestDigestBinds(env: Crypto, a: RequestBinding, b: RequestBinding)
    requires RequestDigest(env, a) == RequestDigest(env, b)
    ensures a == b || Collides(env, EncodeRequest(a), EncodeRequest(b))
  {
    if EncodeRequest(a) == EncodeRequest(b) {
      EncodeRequestInjective(a, b);
    }
  }

  // ---- The encoders as they run: a growing buffer with an in-place prefix swap ----

  /** A `Vec<u8>`. */
  class Vec {
    var data: Bytes

    constructor ()
      ensures data == []
    {
      data := [];
    }

    method ExtendFromSlice(slice: Bytes)
      modifies this
      ensures data == old(data) + slice
    {
      data := data + slice;
    }

    method Push(b: byte)
      modifies this
      ensures data == old(data) + [b]
    {
      data := data + [b];
    }

    /** `splice(0..count, replacement)`. */
    method SpliceFront(count: nat, replacement: Bytes)
      requires count <= |data|
      modifies this
      ensures data == replacement + old(data)[count..]
    {
      data := replacement + data[count..];
    }
  }

  method PutU16(buf: Vec, value: u16)
    modifies buf
    ensures buf.data == old(buf.data) + U16Le(value)
  {
    buf.ExtendFromSlice(U16Le(value));
  }

  method PutU32(buf: Vec, value: u32)
    modifies buf
    ensures buf.data == old(buf.data) + U32Le(value)
  {
    buf.ExtendFromSlice(U32Le(value));
  }

  method PutU64(buf: Vec, value: u64)
    modifies buf
    ensures buf.data == old(buf.data) + U64Le(value)
  {
    buf.ExtendFromSlice(U64Le(value));
  }

  lemma Regroup5(x: Bytes, a: Bytes, b: Bytes, c: Bytes, d: Bytes, e: Bytes)
    ensures x + a + b + c + d + e == x + (a + b + c + d + e)
  {
  }

  lemma Regroup7(x: Bytes, a: Bytes, b: Bytes, c: Bytes, d: Bytes, e: Bytes, f: Bytes, g: Bytes)
    ensures x + a + b + c + d + e + f + g == x + (a + b + c + d + e + f + g)
  {
  }

  method PutIds(buf: Vec, b: RequestBinding)
    modifies buf
    ensures buf.data == old(buf.data) + Ids(b)
  {
    PutU16(buf, b.protocolVersion);
    buf.ExtendFromSlice(b.domainId);
    buf.ExtendFromSlice(b.programId);
    buf.ExtendFromSlice(b.config);
    buf.ExtendFromSlice(b.mint);
    buf.ExtendFromSlice(b.confidentialAccount);
    buf.ExtendFromSlice(b.requestPda);
    Regroup7(old(buf.data), U16Le(b.protocolVersion), b.domainId, b.programId, b.config, b.mint,
             b.confidentialAccount, b.requestPda);
  }

  method PutCommitments(buf: Vec, b: RequestBinding)
    modifies buf
    ensures buf.data == old(buf.data) + Commitments(b)
  {
    PutU16(buf, b.operation);
    buf.ExtendFromSlice(b.balanceHash);
    buf.ExtendFromSlice(b.amountHash);
    buf.ExtendFromSlice(b.limitHash);
    buf.ExtendFromSlice(b.paramsHash);
    Regroup5(old(buf.data), U16Le(b.operation), b.balanceHash, b.amountHash, b.limitHash, b.paramsHash);
  }

  method PutCounters(buf: Vec, b: RequestBinding)
    modifies buf
    ensures buf.data == old(buf.data) + Counters(b)
  {
    PutU64(buf, b.stateVersion);
    PutU64(buf, b.requestNonce);
    PutU32(buf, b.keyVersion);
    PutU64(buf, b.operatorEpoch);
    PutU64(buf, b.expirySlot);
    Regroup5(old(buf.data), U64Le(b.stateVersion), U64Le(b.requestNonce), U32Le(b.keyVersion),
             U64Le(b.operatorEpoch), U64Le(b.expirySlot));
  }

  method BuildRequest(b: RequestBinding) returns (buf: Vec)
    ensures fresh(buf) && buf.data == EncodeRequest(b)
  {
    buf := new Vec();
    buf.ExtendFromSlice(DOMAIN_REQUEST);
    PutIds(buf, b);
    PutCommitments(buf, b);
    PutCounters(buf, b);
    assert buf.data == DOMAIN_REQUEST + Body(b);
  }

  method BuildResult(b: ResultBinding) returns (buf: Vec)
    ensures fresh(buf) && buf.data == EncodeResult(b)
  {
    buf := BuildRequest(b.request);
    assert buf.data[17..] == Body(b.request);
    buf.SpliceFront(|DOMAIN_REQUEST|, DOMAIN_RESULT);
    ghost var start := buf.data;
    buf.ExtendFromSlice(b.requestDigest);
    buf.ExtendFromSlice(b.resultHash);
    buf.Push(b.resultType);
    PutU16(buf, b.circuitId);
    assert buf.data == start + Tail(b);
  }

  // ---- Ciphertext blobs ----

  datatype BlobError = Truncated | Magic | Kind | KeyVersion | Params

  function WrapBlob(kind: u8, keyVersion: u32, paramsHash: Bytes32, payload: Bytes): Bytes {
    BLOB_MAGIC + [kind] + U32Le(keyVersion) + paramsHash + payload
  }

  method BuildBlob(kind: u8, keyVersion: u32, paramsHash: Bytes32, payload: Bytes) returns (out: Vec)
    ensures fresh(out) && out.data == WrapBlob(kind, keyVersion, paramsHash, payload)
  {
    out := new Vec();
    out.ExtendFromSlice(BLOB_MAGIC);
    out.Push(kind);
    PutU32(out, keyVersion);
    out.ExtendFromSlice(paramsHash);
    out.ExtendFromSlice(payload);
  }

  function UnwrapBlob(bytes: Bytes, kind: u8, keyVersion: u32, paramsHash: Bytes32): Result<Bytes, BlobError> {
    if |bytes| < 4 + 1 + 4 + 32 then Err(Truncated)
    else if bytes[0..4] != BLOB_MAGIC then Err(Magic)
    else if bytes[4] != kind then Err(Kind)
    else if U32FromLe(bytes[5..9]) != keyVersion then Err(KeyVersion)
    else if bytes[9..41] != paramsHash then Err(Params)
    else Ok(bytes[41..])
  }

  /** For every byte string: unwrapping yields `p` exactly when the string is the wrapping of `p`. */
  lemma UnwrapExact(bytes: Bytes, kind: u8, keyVersion: u32, paramsHash: Bytes32, p: Bytes)
    ensures UnwrapBlob(bytes, kind, keyVersion, paramsHash) == Ok(p)
       <==> bytes == WrapBlob(kind, keyVersion, paramsHash, p)
  {
    var w := WrapBlob(kind, keyVersion, paramsHash, p);
    assert w[0..4] == BLOB_MAGIC && w[4] == kind && w[5..9] == U32Le(keyVersion) && w[9..41] == paramsHash && w[41..] == p;
    U32RoundTrip(keyVersion);
    if UnwrapBlob(bytes, kind, keyVersion, paramsHash) == Ok(p) {
      ToFromLe(bytes[5..9]);
      assert bytes == bytes[0..4] + [bytes[4]] + bytes[5..9] + bytes[9..41] + bytes[41..];
    }
  }

  /** A blob wrapped under another header is refused, with the first difference as the error. */
  lemma WrappedReads(kind: u8, keyVersion: u32, paramsHash: Bytes32, payload: Bytes, kind': u8, keyVersion': u32, paramsHash': Bytes32)
    ensures UnwrapBlob(WrapBlob(kind, keyVersion, paramsHash, payload), kind', keyVersion', paramsHash')
         == if kind != kind' then Err(BlobError.Kind)
            else if keyVersion != keyVersion' then Err(BlobError.KeyVersion)
            else if paramsHash != paramsHash' then Err(BlobError.Params)
            else Ok(payload)
  {
    var w := WrapBlob(kind, keyVersion, paramsHash, payload);
    assert w[0..4] == BLOB_MAGIC && w[4] == kind && w[5..9] == U32Le(keyVersion) && w[9..41] == paramsHash && w[41..] == payload;
    U32RoundTrip(keyVersion);
  }
}
