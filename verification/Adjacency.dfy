/** The client's instruction-order check and how it agrees with what the coordinator sees on chain. */
module Adjacency {
  import opened Types
  import opened Protocol
  import opened Ed25519
  import opened State
  import opened Coordinator
  import opened Invariant
  import opened Runs
  import opened Client
  import opened ClientProofs

  /** Exactly one coordinator instruction, directly after a native verify instruction. */
  ghost predicate AdjacentAt(ids: seq<Pubkey>, i: nat) {
    && 0 < i < |ids|
    && ids[i] == PROGRAM_ID
    && ids[i - 1] == ED25519_PROGRAM_ID
    && forall j :: 0 <= j < |ids| && ids[j] == PROGRAM_ID ==> j == i
  }

  predicate Free(ids: seq<Pubkey>) {
    forall j :: 0 <= j < |ids| ==> ids[j] != PROGRAM_ID
  }

  lemma {:induction false} PositionsNone(ids: seq<Pubkey>, id: Pubkey, start: nat)
    requires forall j :: 0 <= j < |ids| ==> ids[j] != id
    ensures Positions(ids, id, start) == []
  {
    if ids != [] {
      PositionsNone(ids[1..], id, start + 1);
    }
  }

  /** A single occurrence is found, alone. */
  lemma {:induction false} PositionsOnly(ids: seq<Pubkey>, id: Pubkey, start: nat, i: nat)
    requires i < |ids| && ids[i] == id && forall j :: 0 <= j < |ids| && ids[j] == id ==> j == i
    ensures Positions(ids, id, start) == [start + i]
  {
    if i == 0 {
      PositionsNone(ids[1..], id, start + 1);
    } else {
      PositionsOnly(ids[1..], id, start + 1, i - 1);
    }
  }

  /** Every occurrence is found. */
  lemma {:induction false} PositionsSound(ids: seq<Pubkey>, id: Pubkey, start: nat)
    ensures forall p :: p in Positions(ids, id, start) <==> start <= p < start + |ids| && ids[p - start] == id
  {
    if ids != [] {
      PositionsSound(ids[1..], id, start + 1);
    }
  }

  /** Exactly one position is listed exactly when exactly one occurrence exists. */
  lemma PositionsSingle(ids: seq<Pubkey>, id: Pubkey)
    requires |Positions(ids, id, 0)| == 1
    ensures var i := Positions(ids, id, 0)[0]; i < |ids| && ids[i] == id && forall j :: 0 <= j < |ids| && ids[j] == id ==> j == i
  {
    var ps := Positions(ids, id, 0);
    PositionsSound(ids, id, 0);
    assert ps[0] in ps;
    forall j | 0 <= j < |ids| && ids[j] == id
      ensures j == ps[0]
    {
      assert j in ps;
    }
  }

  /** The list check accepts exactly when some position is the only coordinator one and follows a verify instruction. */
  lemma AdjacencyExact(ids: seq<Pubkey>)
    ensures RequireEd25519BeforeFinalize(ids).Ok? <==> exists i: nat :: AdjacentAt(ids, i)
  {
    if RequireEd25519BeforeFinalize(ids).Ok? {
      PositionsSingle(ids, PROGRAM_ID);
      assert AdjacentAt(ids, Positions(ids, PROGRAM_ID, 0)[0]);
    }
    forall i: nat | AdjacentAt(ids, i)
      ensures RequireEd25519BeforeFinalize(ids).Ok?
    {
      PositionsOnly(ids, PROGRAM_ID, 0, i);
    }
  }

  /** Acceptance survives any prefix and suffix without coordinator instructions, at the shifted position. */
  lemma AdjacencyShifts(prefix: seq<Pubkey>, ids: seq<Pubkey>, suffix: seq<Pubkey>)
    requires Free(prefix) && Free(suffix) && RequireEd25519BeforeFinalize(ids).Ok?
    ensures RequireEd25519BeforeFinalize(prefix + ids + suffix).Ok?
  {
    AdjacencyExact(ids);
    var i: nat :| AdjacentAt(ids, i);
    var all := prefix + ids + suffix;
    forall j | 0 <= j < |all| && all[j] == PROGRAM_ID
      ensures j == |prefix| + i
    {
      assert j >= |prefix| ==> all[j] == (ids + suffix)[j - |prefix|];
    }
    assert AdjacentAt(all, |prefix| + i);
    AdjacencyExact(all);
  }

  /**
   * The built pair, at any position among instructions that are not the coordinator's, passes both the
   * list check and the coordinator's introspection there.
   */
  lemma PairPassesAnywhere(prefix: seq<Instruction>, suffix: seq<Instruction>, p: PreparedFinalize, data: Bytes)
    requires |prefix| + 2 + |suffix| <= 0xFFFF
    requires Free(ProgramIds(prefix)) && Free(ProgramIds(suffix))
    ensures var ixs: Instructions := prefix + FinalizeInstructions(p, data) + suffix;
            && RequireEd25519BeforeFinalize(ProgramIds(ixs)).Ok?
            && VerifyOperatorMessage(ixs, |prefix| + 1, Pubkey(p.parsed.operator), EncodeResult(p.binding)).Ok?
  {
    var pair := FinalizeInstructions(p, data);
    var ixs: Instructions := prefix + pair + suffix;
    assert ProgramIds(ixs) == ProgramIds(prefix) + ProgramIds(pair) + ProgramIds(suffix);
    PairPassesAdjacency(p, data);
    AdjacencyShifts(ProgramIds(prefix), ProgramIds(pair), ProgramIds(suffix));
    assert ixs[|prefix|] == pair[0];
    ResultRoundTrip(p.binding);
    BuiltPassesIntrospection(ixs, |prefix|, Pubkey(p.parsed.operator), EncodeResult(p.binding), p.parsed.signature);
  }

  /** Around the pair, every verify instruction is accepted in its place. */
  predicate OthersAccepted(env: Crypto, ixs: Instructions, prefix: seq<Instruction>, suffix: seq<Instruction>)
    requires |ixs| == |prefix| + 2 + |suffix|
  {
    forall i :: 0 <= i < |ixs| && i != |prefix| && i != |prefix| + 1 && ixs[i].programId == ED25519_PROGRAM_ID ==>
                  PrecompileAccepts(env, ixs, ixs[i].data)
  }

  /**
   * A prepared finalize sent among other instructions, none of them the coordinator's: the whole
   * transaction commits exactly when the four conditions the client leaves unchecked hold.
   */
  lemma PreparedLandsAnywhere(env: Crypto, w: World, p: PreparedFinalize, q: Pubkey, data: Bytes,
                              prefix: seq<Instruction>, suffix: seq<Instruction>)
    requires LedgerInv(env, w.ledger) && IsRequest(w.ledger, q) && IsConfig(w.ledger, RequestAt(w.ledger, q).config)
    requires Matches(env, w.ledger, p, q)
    requires |prefix| + 2 + |suffix| <= 0xFFFF && Free(ProgramIds(prefix)) && Free(ProgramIds(suffix))
    requires OthersAccepted(env, prefix + FinalizeInstructions(p, data) + suffix, prefix, suffix)
    ensures var ixs: Instructions := prefix + FinalizeInstructions(p, data) + suffix;
            Commits(env, w, Transaction(ixs, [Invocation(|prefix| + 1, FinalizeCall(p))]))
            <==> Residual(w.ledger, q, w.slot, p.parsed.resultHash)
  {
    var ixs: Instructions := prefix + FinalizeInstructions(p, data) + suffix;
    PairPassesAnywhere(prefix, suffix, p, data);
    PairAcceptedAnywhere(env, ixs, prefix, suffix, p, data);
    var at: u16 := |prefix| + 1;
    PreparedCallSucceeds(env, w.ledger, Context(w.slot, ixs, at), p, q);
    SingleFinalizeCommits(env, w, ixs, at, FinalizeCall(p));
  }

  lemma PairAcceptedAnywhere(env: Crypto, ixs: Instructions, prefix: seq<Instruction>, suffix: seq<Instruction>,
                             p: PreparedFinalize, data: Bytes)
    requires ixs == prefix + FinalizeInstructions(p, data) + suffix && OthersAccepted(env, ixs, prefix, suffix)
    requires env.ed25519Verify(p.parsed.operator, EncodeResult(p.binding), p.parsed.signature)
    ensures PrecompilesAccept(env, ixs)
  {
    ProgramsDiffer();
    ResultRoundTrip(p.binding);
    BuiltAccepted(env, ixs, EncodeResult(p.binding), p.parsed.signature, p.parsed.operator);
    assert ixs[|prefix|] == FinalizeInstructions(p, data)[0] && ixs[|prefix| + 1] == FinalizeInstructions(p, data)[1];
  }

  /** Anything but a verify instruction directly before the coordinator's makes both checks reject. */
  lemma InsertedRejected(ixs: Instructions, at: u16, operator: Pubkey, message: Bytes)
    requires 0 < at < |ixs| && ixs[at].programId == PROGRAM_ID && ixs[at - 1].programId != ED25519_PROGRAM_ID
    ensures VerifyOperatorMessage(ixs, at, operator, message).Err?
    ensures RequireEd25519BeforeFinalize(ProgramIds(ixs)).Err?
  {
    var ids := ProgramIds(ixs);
    AdjacencyExact(ids);
    assert ids[at] == PROGRAM_ID && ids[at - 1] != ED25519_PROGRAM_ID;
    assert forall i: nat :: !AdjacentAt(ids, i);
  }

  /** Where introspection succeeds for the only coordinator instruction, the list check accepts. */
  lemma ChainImpliesList(ixs: Instructions, at: u16, operator: Pubkey, message: Bytes)
    requires at < |ixs| && ixs[at].programId == PROGRAM_ID
    requires forall j :: 0 <= j < |ixs| && ixs[j].programId == PROGRAM_ID ==> j == at
    requires VerifyOperatorMessage(ixs, at, operator, message).Ok?
    ensures RequireEd25519BeforeFinalize(ProgramIds(ixs)).Ok?
  {
    AdjacencyExact(ProgramIds(ixs));
    assert AdjacentAt(ProgramIds(ixs), at);
  }
}
