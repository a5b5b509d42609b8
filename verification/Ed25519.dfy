/** The native signature precompile, the coordinator's introspection of it, and the instruction the client builds. */
module Ed25519 {
  import opened Types
  import opened LittleEndian
  import opened Errors

  const ED25519_PROGRAM_ID := Pubkey(
    [3, 125, 70, 214, 124, 147, 251, 190, 18, 249, 66, 143, 131, 141, 64, 255,
     5, 112, 116, 73, 39, 244, 138, 100, 252, 202, 112, 68, 128, 0, 0, 0])
  const INSTRUCTIONS_ID := Pubkey(
    [6, 167, 213, 23, 24, 123, 209, 102, 53, 218, 212, 4, 85, 253, 194, 192,
     193, 36, 198, 143, 33, 86, 117, 165, 219, 186, 203, 95, 8, 0, 0, 0])

  const PUBKEY_SIZE: u64 := 32
  const SIGNATURE_SIZE: u64 := 64

  /** A top-level instruction of a transaction, as the instructions sysvar shows it. */
  datatype Instruction = Instruction(programId: Pubkey, data: Bytes)

  /** The sysvar counts instructions in a `u16`. */
  type Instructions = s: seq<Instruction> | |s| <= 0xFFFF

  // ---- Introspection: ed25519.rs ----

  function U16At(data: Bytes, offset: nat): Result<u16, Error> {
    if offset + 2 <= |data| then Ok(U16FromLe(data[offset..offset + 2])) else Err(InvalidSignature)
  }

  predicate IndexIsSelf(stored: u16, edIndex: u16) {
    stored == edIndex || stored == U16_MAX
  }

  function LoadInstruction(ixs: Instructions, index: u16): Result<Instruction, Error> {
    if index < |ixs| then Ok(ixs[index]) else Err(SysvarError)
  }

  /** `checked_add` then `<= data.len()`, with the overflow arm the source writes. */
  function InRange(offset: u16, size: u64, data: Bytes): Outcome<Error> {
    match CheckedAdd(offset, size)
    case None => Fail(InvalidSignature)
    case Some(end) => Require(end <= |data|, InvalidSignature)
  }

  function VerifyOperatorMessage(ixs: Instructions, currentIndex: u16, operator: Pubkey, message: Bytes): Result<(), Error> {
    var current := currentIndex;
    :- Require(current > 0, InvalidSignature);
    var edIndex: u16 := current - 1;
    var edIx :- LoadInstruction(ixs, edIndex);
    :- Require(edIx.programId == ED25519_PROGRAM_ID, InvalidSignature);
    var data := edIx.data;
    :- Require(|data| >= 16, InvalidSignature);
    :- Require(data[0] == 1, InvalidSignature);
    var sigOff :- U16At(data, 2);
    var sigIx :- U16At(data, 4);
    var pkOff :- U16At(data, 6);
    var pkIx :- U16At(data, 8);
    var msgOff :- U16At(data, 10);
    var msgSz :- U16At(data, 12);
    var msgIx :- U16At(data, 14);
    :- Require(IndexIsSelf(sigIx, edIndex) && IndexIsSelf(pkIx, edIndex) && IndexIsSelf(msgIx, edIndex), InvalidSignature);
    :- InRange(pkOff, PUBKEY_SIZE, data);
    :- InRange(sigOff, SIGNATURE_SIZE, data);
    :- InRange(msgOff, msgSz, data);
    :- Require(msgSz == |message|, InvalidResult);
    :- Require(Pubkey(data[pkOff..pkOff + 32]) == operator, InvalidOperator);
    :- Require(data[msgOff..msgOff + msgSz] == message, InvalidResult);
    Ok(())
  }

  // ---- The native precompile ----

  /** One 14-byte offsets entry of a verify instruction. */
  datatype Offsets = Offsets(sigOff: u16, sigIx: u16, pkOff: u16, pkIx: u16, msgOff: u16, msgSz: u16, msgIx: u16)

  function OffsetsAt(data: Bytes, k: nat): Offsets
    requires 2 + 14 * (k + 1) <= |data|
  {
    var s := 2 + 14 * k;
    Offsets(U16FromLe(data[s..s + 2]), U16FromLe(data[s + 2..s + 4]), U16FromLe(data[s + 4..s + 6]),
            U16FromLe(data[s + 6..s + 8]), U16FromLe(data[s + 8..s + 10]), U16FromLe(data[s + 10..s + 12]),
            U16FromLe(data[s + 12..s + 14]))
  }

  /** The bytes an entry points at: `u16::MAX` is the instruction itself, anything else a transaction position. */
  function Region(ixs: Instructions, own: Bytes, index: u16, offset: nat, size: nat): Option<Bytes> {
    if index == U16_MAX then Slice(own, offset, size)
    else if index < |ixs| then Slice(ixs[index].data, offset, size)
    else None
  }

  function Slice(data: Bytes, offset: nat, size: nat): (r: Option<Bytes>)
    ensures r.Some? ==> |r.value| == size
  {
    if offset + size <= |data| then Some(data[offset..offset + size]) else None
  }

  predicate EntryAccepted(env: Crypto, ixs: Instructions, own: Bytes, o: Offsets) {
    var sig := Region(ixs, own, o.sigIx, o.sigOff, 64);
    var pk := Region(ixs, own, o.pkIx, o.pkOff, 32);
    var msg := Region(ixs, own, o.msgIx, o.msgOff, o.msgSz);
    sig.Some? && pk.Some? && msg.Some? && env.ed25519Verify(pk.value, msg.value, sig.value)
  }

  predicate PrecompileAccepts(env: Crypto, ixs: Instructions, data: Bytes) {
    && |data| >= 2
    && (data[0] == 0 ==> |data| == 2)
    && |data| >= 2 + 14 * (data[0] as int)
    && forall k: nat :: k < data[0] ==> EntryAccepted(env, ixs, data, OffsetsAt(data, k))
  }

  /** Every verify instruction of the transaction passes; otherwise the transaction never runs. */
  predicate PrecompilesAccept(env: Crypto, ixs: Instructions) {
    forall i :: 0 <= i < |ixs| && ixs[i].programId == ED25519_PROGRAM_ID ==> PrecompileAccepts(env, ixs, ixs[i].data)
  }

  /** The instruction directly before is long enough for one entry, and that entry's signature lies in range. */
  predicate HasSignature(ixs: Instructions, current: u16) {
    && 0 < current <= |ixs| && |ixs[current - 1].data| >= 16
    && var data := ixs[current - 1].data;
    && var o := OffsetsAt(data, 0);
    Region(ixs, data, o.sigIx, o.sigOff, 64).Some?
  }

  /** The 64 bytes that the entry of the instruction directly before points at as its signature. */
  function SignatureIn(ixs: Instructions, current: u16): Bytes64
    requires HasSignature(ixs, current)
  {
    var data := ixs[current - 1].data;
    var o := OffsetsAt(data, 0);
    Region(ixs, data, o.sigIx, o.sigOff, 64).value
  }

  /** Some 64 bytes verify as a signature of `message` by `operator`, whether or not anybody made them. */
  ghost predicate Signed(env: Crypto, operator: Pubkey, message: Bytes) {
    exists sig: Bytes64 :: env.ed25519Verify(operator.bytes, message, sig)
  }

  /**
   * What introspection is meant to establish, said with the precompile's own reading of the
   * instruction: the one directly before is a verify instruction with a single entry, located in
   * itself, over exactly this operator and this message.
   */
  predicate BindsExactly(ixs: Instructions, current: u16, operator: Pubkey, message: Bytes) {
    && 0 < current <= |ixs|
    && ixs[current - 1].programId == ED25519_PROGRAM_ID
    && var data := ixs[current - 1].data;
    && |data| >= 16 && data[0] == 1
    && var o := OffsetsAt(data, 0);
    && (o.sigIx == 0xFFFF || o.sigIx == current - 1)
    && (o.pkIx == 0xFFFF || o.pkIx == current - 1)
    && (o.msgIx == 0xFFFF || o.msgIx == current - 1)
    && Region(ixs, data, o.pkIx, o.pkOff, 32) == Some(operator.bytes)
    && Region(ixs, data, o.msgIx, o.msgOff, o.msgSz) == Some(message)
    && Region(ixs, data, o.sigIx, o.sigOff, 64).Some?
  }

  /** Introspection reads the seven numbers of the first entry. */
  lemma ReadsOffsets(data: Bytes)
    requires |data| >= 16
    ensures var o := OffsetsAt(data, 0);
            && U16At(data, 2) == Ok(o.sigOff) && U16At(data, 4) == Ok(o.sigIx) && U16At(data, 6) == Ok(o.pkOff)
            && U16At(data, 8) == Ok(o.pkIx) && U16At(data, 10) == Ok(o.msgOff) && U16At(data, 12) == Ok(o.msgSz)
            && U16At(data, 14) == Ok(o.msgIx)
  {
  }

  /**
   * For arbitrary instruction bytes and positions, introspection succeeds exactly when the precompile
   * resolves that entry to (operator, message); so its overflow arms decide nothing.
   */
  lemma IntrospectionExact(ixs: Instructions, current: u16, operator: Pubkey, message: Bytes)
    ensures VerifyOperatorMessage(ixs, current, operator, message).Ok? <==> BindsExactly(ixs, current, operator, message)
  {
    if 0 < current <= |ixs| && |ixs[current - 1].data| >= 16 {
      ReadsOffsets(ixs[current - 1].data);
    }
  }

  /**
   * If the precompile let the transaction through and introspection says Ok, then the signature carried
   * by the instruction directly before verifies for exactly this operator and this message.
   */
  lemma IntrospectionSound(env: Crypto, ixs: Instructions, current: u16, operator: Pubkey, message: Bytes)
    requires PrecompilesAccept(env, ixs)
    requires VerifyOperatorMessage(ixs, current, operator, message).Ok?
    ensures HasSignature(ixs, current)
    ensures env.ed25519Verify(operator.bytes, message, SignatureIn(ixs, current))
  {
    IntrospectionExact(ixs, current, operator, message);
    var data := ixs[current - 1].data;
    assert PrecompileAccepts(env, ixs, data);
    assert EntryAccepted(env, ixs, data, OffsetsAt(data, 0));
  }

  /**
   * An instruction that binds one operator and message binds no other: introspection for anything else
   * names what differs, the message's length first, then the operator, then the message's bytes.
   */
  lemma IntrospectionUnique(ixs: Instructions, current: u16, operator: Pubkey, message: Bytes, operator': Pubkey, message': Bytes)
    requires VerifyOperatorMessage(ixs, current, operator, message).Ok?
    ensures var r := VerifyOperatorMessage(ixs, current, operator', message');
            && (r.Ok? <==> operator' == operator && message' == message)
            && (|message'| != |message| ==> r == Err(InvalidResult))
            && (|message'| == |message| && operator' != operator ==> r == Err(InvalidOperator))
            && (|message'| == |message| && operator' == operator && message' != message ==> r == Err(InvalidResult))
  {
    IntrospectionExact(ixs, current, operator, message);
  }

  /** Without a verify instruction directly before, introspection answers InvalidSignature. */
  lemma IntrospectionNeedsVerify(ixs: Instructions, current: u16, operator: Pubkey, message: Bytes)
    requires current == 0 || (current <= |ixs| && ixs[current - 1].programId != ED25519_PROGRAM_ID)
    ensures VerifyOperatorMessage(ixs, current, operator, message) == Err(InvalidSignature)
  {
  }

  // ---- The instruction the client builds ----

  /** Header, offsets with `u16::MAX` indices, key, signature, message (`new_ed25519_instruction_with_signature`). */
  function NewVerifyInstruction(message: Bytes, signature: Bytes64, pubkey: Bytes32): Instruction {
    Instruction(ED25519_PROGRAM_ID, VerifyHeader(|message| % 0x1_0000) + pubkey + signature + message)
  }

  function VerifyHeader(size: u16): (s: Bytes)
    ensures |s| == 16
  {
    [1, 0] + U16Le(48) + U16Le(U16_MAX) + U16Le(16) + U16Le(U16_MAX) + U16Le(112) + U16Le(size) + U16Le(U16_MAX)
  }

  lemma VerifyHeaderSlices(size: u16)
    ensures var s := VerifyHeader(size);
            && s[0] == 1 && s[2..4] == U16Le(48) && s[4..6] == U16Le(U16_MAX) && s[6..8] == U16Le(16)
            && s[8..10] == U16Le(U16_MAX) && s[10..12] == U16Le(112) && s[12..14] == U16Le(size) && s[14..16] == U16Le(U16_MAX)
  {
  }

  lemma SliceOfPrefix(h: Bytes, rest: Bytes, i: nat, j: nat)
    requires i <= j <= |h|
    ensures (h + rest)[i..j] == h[i..j]
  {
  }

  /** Reading a built header back, whatever follows it. */
  lemma HeaderOffsets(size: u16, rest: Bytes)
    ensures OffsetsAt(VerifyHeader(size) + rest, 0) == Offsets(48, U16_MAX, 16, U16_MAX, 112, size, U16_MAX)
    ensures VerifyHeader(size)[0] == 1
  {
    var h := VerifyHeader(size);
    VerifyHeaderSlices(size);
    SliceOfPrefix(h, rest, 2, 4);
    SliceOfPrefix(h, rest, 4, 6);
    SliceOfPrefix(h, rest, 6, 8);
    SliceOfPrefix(h, rest, 8, 10);
    SliceOfPrefix(h, rest, 10, 12);
    SliceOfPrefix(h, rest, 12, 14);
    SliceOfPrefix(h, rest, 14, 16);
    U16RoundTrip(48);
    U16RoundTrip(16);
    U16RoundTrip(112);
    U16RoundTrip(U16_MAX);
    U16RoundTrip(size);
  }

  /** A header, a key, a signature and a message in a row. */
  lemma FourRegions(header: Bytes, pubkey: Bytes32, signature: Bytes64, message: Bytes)
    requires |header| == 16
    ensures var data := header + pubkey + signature + message;
            && data == header + (pubkey + signature + message) && |data| == 112 + |message| && data[0] == header[0]
            && data[16..48] == pubkey && data[48..112] == signature && data[112..112 + |message|] == message
  {
  }

  /** The same behind any header that reads back as the intended offsets. */
  lemma LaidOut(header: Bytes, message: Bytes, signature: Bytes64, pubkey: Bytes32, o: Offsets)
    requires |header| == 16 && header[0] == 1 && OffsetsAt(header + (pubkey + signature + message), 0) == o
    ensures var data := header + pubkey + signature + message;
            && |data| == 112 + |message| && data[0] == 1 && OffsetsAt(data, 0) == o
            && data[16..48] == pubkey && data[48..112] == signature && data[112..112 + |message|] == message
  {
    FourRegions(header, pubkey, signature, message);
  }

  lemma BuiltOffsets(message: Bytes, signature: Bytes64, pubkey: Bytes32)
    requires |message| <= 0xFFFF
    ensures var data := NewVerifyInstruction(message, signature, pubkey).data;
            && |data| == 112 + |message| && data[0] == 1
            && OffsetsAt(data, 0) == Offsets(48, U16_MAX, 16, U16_MAX, 112, |message|, U16_MAX)
            && data[16..48] == pubkey && data[48..112] == signature && data[112..112 + |message|] == message
  {
    var size: u16 := |message|;
    assert |message| % 0x1_0000 == size;
    assert NewVerifyInstruction(message, signature, pubkey).data == VerifyHeader(size) + pubkey + signature + message;
    HeaderOffsets(size, pubkey + signature + message);
    LaidOut(VerifyHeader(size), message, signature, pubkey, Offsets(48, U16_MAX, 16, U16_MAX, 112, size, U16_MAX));
  }

  /** A single self-located entry is accepted exactly when its signature verifies. */
  lemma SelfLocatedEntry(env: Crypto, ixs: Instructions, data: Bytes, message: Bytes, signature: Bytes64, pubkey: Bytes32)
    requires |message| <= 0xFFFF && |data| == 112 + |message| && data[0] == 1
    requires OffsetsAt(data, 0) == Offsets(48, U16_MAX, 16, U16_MAX, 112, |message|, U16_MAX)
    requires data[16..48] == pubkey && data[48..112] == signature && data[112..112 + |message|] == message
    ensures PrecompileAccepts(env, ixs, data) <==> env.ed25519Verify(pubkey, message, signature)
  {
  }

  /** The precompile accepts the built instruction, wherever it stands, exactly when the signature verifies. */
  lemma BuiltAccepted(env: Crypto, ixs: Instructions, message: Bytes, signature: Bytes64, pubkey: Bytes32)
    requires |message| <= 0xFFFF
    ensures PrecompileAccepts(env, ixs, NewVerifyInstruction(message, signature, pubkey).data)
       <==> env.ed25519Verify(pubkey, message, signature)
  {
    BuiltOffsets(message, signature, pubkey);
    SelfLocatedEntry(env, ixs, NewVerifyInstruction(message, signature, pubkey).data, message, signature, pubkey);
  }

  /** Placed directly before the coordinator instruction, at any position, it satisfies introspection. */
  lemma BuiltPassesIntrospection(ixs: Instructions, at: u16, operator: Pubkey, message: Bytes, signature: Bytes64)
    requires at + 1 <= |ixs| && |message| <= 0xFFFF
    requires ixs[at] == NewVerifyInstruction(message, signature, operator.bytes)
    ensures VerifyOperatorMessage(ixs, at + 1, operator, message).Ok?
  {
    BuiltOffsets(message, signature, operator.bytes);
    assert BindsExactly(ixs, at + 1, operator, message);
    IntrospectionExact(ixs, at + 1, operator, message);
  }
}
