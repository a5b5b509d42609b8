/** The coordinator refines one append-only log of requests per account. */
module AccountLog {
  import opened Types
  import opened Protocol
  import opened State
  import opened Coordinator
  import opened Invariant
  import opened Lifecycle

  type Log = seq<Request>

  /** The account's requests number 1 to `requestNonce`, in order. */
  ghost function LogOf(env: Crypto, l: Ledger, ak: Pubkey): (log: Log)
    requires LedgerInv(env, l) && IsAccount(l, ak)
    ensures |log| == AccountAt(l, ak).requestNonce
    ensures forall i :: 0 <= i < |log| ==> HasRequest(env, l, ak, i + 1) && log[i] == RequestAt(l, RequestPda(env, ak, i + 1))
  {
    assert RecordOk(env, l, ak);
    seq(AccountAt(l, ak).requestNonce,
        i requires 0 <= i < AccountAt(l, ak).requestNonce => assert HasRequest(env, l, ak, i + 1); RequestAt(l, RequestPda(env, ak, i + 1)))
  }

  // ---- The abstract log ----

  predicate Idle(log: Log) {
    log == [] || log[|log| - 1].status != Pending
  }

  /** A new pending entry on an idle log. */
  predicate Opens(log: Log, log': Log) {
    Idle(log) && |log'| == |log| + 1 && log'[..|log|] == log && log'[|log|].status == Pending
  }

  /** The one pending entry reaches its final form. */
  predicate Closes(log: Log, log': Log) {
    !Idle(log) && Idle(log') && |log'| == |log|
    && log'[..|log| - 1] == log[..|log| - 1] && RequestEvolves(log[|log| - 1], log'[|log| - 1])
  }

  /** Entries are numbered from 1, follow their own state version, and only the last can be pending. */
  predicate WellFormed(log: Log) {
    forall i :: 0 <= i < |log| ==>
                  log[i].requestNonce == i + 1 && log[i].stateVersion == i && (i < |log| - 1 ==> log[i].status != Pending)
  }

  function CountTerminal(log: Log): nat {
    if log == [] then 0 else CountTerminal(log[..|log| - 1]) + (if log[|log| - 1].status != Pending then 1 else 0)
  }

  lemma {:induction false} CountAllTerminal(log: Log)
    requires forall i :: 0 <= i < |log| ==> log[i].status != Pending
    ensures CountTerminal(log) == |log|
  {
    if log != [] {
      CountAllTerminal(log[..|log| - 1]);
    }
  }

  // ---- The abstraction ----

  /** A request of account `ak` numbered `n` exists exactly for 1 <= n <= requestNonce. */
  lemma RequestExistsIff(env: Crypto, l: Ledger, ak: Pubkey, n: u64)
    requires LedgerInv(env, l) && IsAccount(l, ak)
    ensures (exists k :: IsRequest(l, k) && RequestAt(l, k).confidentialAccount == ak && RequestAt(l, k).requestNonce == n)
       <==> 1 <= n <= AccountAt(l, ak).requestNonce
  {
    assert RecordOk(env, l, ak);
    if 1 <= n <= AccountAt(l, ak).requestNonce {
      assert HasRequest(env, l, ak, n);
    }
    forall k | IsRequest(l, k) && RequestAt(l, k).confidentialAccount == ak && RequestAt(l, k).requestNonce == n
      ensures 1 <= n <= AccountAt(l, ak).requestNonce
    {
      assert RecordOk(env, l, k);
    }
  }

  /** Every request of the account is in its log, at the position its nonce names. */
  lemma LogComplete(env: Crypto, l: Ledger, ak: Pubkey, k: Pubkey)
    requires LedgerInv(env, l) && IsAccount(l, ak) && IsRequest(l, k) && RequestAt(l, k).confidentialAccount == ak
    ensures var r := RequestAt(l, k);
            1 <= r.requestNonce <= |LogOf(env, l, ak)| && LogOf(env, l, ak)[r.requestNonce - 1] == r
  {
    assert RecordOk(env, l, k);
  }

  /** The account record is exactly a summary of its log. */
  lemma AccountSummarizesLog(env: Crypto, l: Ledger, ak: Pubkey)
    requires LedgerInv(env, l) && IsAccount(l, ak)
    ensures var a, log := AccountAt(l, ak), LogOf(env, l, ak);
            && WellFormed(log)
            && a.requestNonce == |log|
            && a.stateVersion == CountTerminal(log)
            && (a.HasPending() <==> !Idle(log))
            && (a.HasPending() ==> a.pendingRequest == RequestPda(env, ak, |log|))
            && a.requestNonce == a.stateVersion + (if a.HasPending() then 1 else 0)
  {
    var a, log := AccountAt(l, ak), LogOf(env, l, ak);
    assert RecordOk(env, l, ak);
    forall i | 0 <= i < |log|
      ensures log[i].requestNonce == i + 1 && log[i].stateVersion == i
      ensures log[i].status == Pending <==> i == |log| - 1 && a.HasPending()
    {
      LogEntry(env, l, ak, i);
    }
    if log != [] {
      CountAllTerminal(log[..|log| - 1]);
    }
  }

  /** Request number `n`: its numbers, and that it is pending exactly when the lock is held on it. */
  lemma NumberedRequest(env: Crypto, l: Ledger, ak: Pubkey, n: u64)
    requires LedgerInv(env, l) && IsAccount(l, ak) && 1 <= n <= AccountAt(l, ak).requestNonce
    ensures HasRequest(env, l, ak, n)
    ensures var r, a := RequestAt(l, RequestPda(env, ak, n)), AccountAt(l, ak);
            && r.requestNonce == n && r.stateVersion == n - 1
            && (r.status == Pending <==> n == a.requestNonce && a.HasPending())
  {
    var q := RequestPda(env, ak, n);
    assert RecordOk(env, l, ak);
    assert HasRequest(env, l, ak, n);
    assert RecordOk(env, l, q);
    if RequestAt(l, q).status == Pending {
      PendingIsLast(env, l, ak, q);
    }
  }

  /** The same of the log's entry at position `i`. */
  lemma LogEntry(env: Crypto, l: Ledger, ak: Pubkey, i: nat)
    requires LedgerInv(env, l) && IsAccount(l, ak) && i < AccountAt(l, ak).requestNonce
    ensures var e := LogOf(env, l, ak)[i];
            && e.requestNonce == i + 1 && e.stateVersion == i
            && (e.status == Pending <==> i == AccountAt(l, ak).requestNonce - 1 && AccountAt(l, ak).HasPending())
  {
    NumberedRequest(env, l, ak, i + 1);
  }

  /** An account's log depends only on its nonce and its requests. */
  lemma SameLog(env: Crypto, l: Ledger, l': Ledger, ak: Pubkey)
    requires LedgerInv(env, l) && IsAccount(l, ak) && LedgerInv(env, l') && IsAccount(l', ak)
    requires AccountAt(l, ak).requestNonce == AccountAt(l', ak).requestNonce
    requires forall k :: IsRequest(l, k) && RequestAt(l, k).confidentialAccount == ak ==> k in l' && l'[k] == l[k]
    ensures LogOf(env, l', ak) == LogOf(env, l, ak)
  {
  }

  /** Whose log an instruction advances. */
  function Advances(call: Call): set<Pubkey> {
    match call
    case Submit(_, _, ak, _, _) => {ak}
    case Cancel(_, ak, _) => {ak}
    case Expire(ak, _) => {ak}
    case Finalize(_, ak, _, _, _) => {ak}
    case _ => {}
  }

  lemma OtherLogsStutter(env: Crypto, l: Ledger, ctx: Context, call: Call, ak: Pubkey)
    requires LedgerInv(env, l) && Exec(env, l, ctx, call).Ok? && IsAccount(l, ak) && ak !in Advances(call)
    ensures var l' := Exec(env, l, ctx, call).value;
            LedgerInv(env, l') && IsAccount(l', ak) && LogOf(env, l', ak) == LogOf(env, l, ak)
  {
    var l' := Exec(env, l, ctx, call).value;
    ExecPreserves(env, l, ctx, call);
    assert KeyEvolves(l, l', ak);
    AccountUnwritten(env, l, ctx, call, ak);
    forall k | IsRequest(l, k) && RequestAt(l, k).confidentialAccount == ak
      ensures k in l' && l'[k] == l[k]
    {
      RequestUnwritten(env, l, ctx, call, k);
    }
    SameLog(env, l, l', ak);
  }

  lemma AccountUnwritten(env: Crypto, l: Ledger, ctx: Context, call: Call, ak: Pubkey)
    requires LedgerInv(env, l) && Exec(env, l, ctx, call).Ok? && IsAccount(l, ak) && ak !in Advances(call)
    ensures var l' := Exec(env, l, ctx, call).value; ak in l' && l'[ak] == l[ak]
  {
    assert ak !in Writes(call);
    ExecFrame(env, l, ctx, call, ak);
  }

  /** The only existing request an instruction can write belongs to the account whose log it advances. */
  lemma WritesOwnRequest(env: Crypto, l: Ledger, ctx: Context, call: Call)
    requires Exec(env, l, ctx, call).Ok? && Advances(call) != {}
    ensures IsRequest(l, call.request) ==> RequestAt(l, call.request).confidentialAccount == call.account
    ensures IsAccount(l, call.account)
  {
    match call
    case Submit(_, _, _, _, _) => SubmitOpens(env, l, ctx, call);
    case Cancel(_, _, _) => CancelCloses(env, l, ctx, call);
    case Expire(_, _) => ExpireCloses(env, l, ctx, call);
    case Finalize(_, _, _, _, _) => FinalizeCloses(env, l, ctx, call);
  }

  /** The other instructions write no request. */
  lemma WritesNoRequest(env: Crypto, l: Ledger, ctx: Context, call: Call)
    requires Exec(env, l, ctx, call).Ok? && Advances(call) == {}
    ensures forall k :: IsRequest(l, k) ==> k !in Writes(call)
  {
  }

  lemma RequestUnwritten(env: Crypto, l: Ledger, ctx: Context, call: Call, k: Pubkey)
    requires LedgerInv(env, l) && Exec(env, l, ctx, call).Ok? && IsRequest(l, k)
    requires RequestAt(l, k).confidentialAccount !in Advances(call)
    ensures var l' := Exec(env, l, ctx, call).value; k in l' && l'[k] == l[k]
  {
    if Advances(call) == {} {
      WritesNoRequest(env, l, ctx, call);
    } else {
      WritesOwnRequest(env, l, ctx, call);
      assert Advances(call) == {call.account} && Writes(call) == {call.account, call.request};
    }
    ExecFrame(env, l, ctx, call, k);
  }

  /** An entry whose record was not written is the same in both logs. */
  lemma EntryKept(env: Crypto, l: Ledger, l': Ledger, ak: Pubkey, i: nat)
    requires LedgerInv(env, l) && IsAccount(l, ak) && LedgerInv(env, l') && IsAccount(l', ak)
    requires i < AccountAt(l, ak).requestNonce <= AccountAt(l', ak).requestNonce
    requires var q := RequestPda(env, ak, i + 1); q in l ==> q in l' && l'[q] == l[q]
    ensures LogOf(env, l', ak)[i] == LogOf(env, l, ak)[i]
  {
  }

  lemma OpeningKeepsEarlier(env: Crypto, l: Ledger, ak: Pubkey, q: Pubkey, pair: (ConfidentialAccount, Request), i: nat)
    requires LedgerInv(env, l) && IsAccount(l, ak) && q !in l && ak != q
    requires LedgerInv(env, Store(l, ak, q, pair)) && pair.0.requestNonce == AccountAt(l, ak).requestNonce + 1
    requires i < AccountAt(l, ak).requestNonce
    ensures LogOf(env, Store(l, ak, q, pair), ak)[i] == LogOf(env, l, ak)[i]
  {
  }

  lemma OpeningOpensLog(env: Crypto, l: Ledger, ak: Pubkey, q: Pubkey, pair: (ConfidentialAccount, Request))
    requires LedgerInv(env, l) && IsAccount(l, ak) && q !in l
    requires LedgerInv(env, Store(l, ak, q, pair)) && ak != q
    requires !AccountAt(l, ak).HasPending() && pair.0.requestNonce == AccountAt(l, ak).requestNonce + 1
    requires q == RequestPda(env, ak, pair.0.requestNonce) && pair.1.status == Pending
    ensures Opens(LogOf(env, l, ak), LogOf(env, Store(l, ak, q, pair), ak))
  {
    var l' := Store(l, ak, q, pair);
    AccountSummarizesLog(env, l, ak);
    var log, log' := LogOf(env, l, ak), LogOf(env, l', ak);
    forall i | 0 <= i < |log|
      ensures log'[i] == log[i]
    {
      OpeningKeepsEarlier(env, l, ak, q, pair, i);
    }
    assert log'[|log|] == RequestAt(l', q);
  }

  lemma ClosingKeepsEarlier(env: Crypto, l: Ledger, ak: Pubkey, q: Pubkey, pair: (ConfidentialAccount, Request), i: nat)
    requires LedgerInv(env, l) && Invariant.Closes(l, ak, q, pair) && LedgerInv(env, Store(l, ak, q, pair)) && ak != q
    requires i + 1 < AccountAt(l, ak).requestNonce
    ensures LogOf(env, Store(l, ak, q, pair), ak)[i] == LogOf(env, l, ak)[i]
  {
    PendingIsLast(env, l, ak, q);
    assert RecordOk(env, l, ak);
    assert HasRequest(env, l, ak, i + 1);
    assert RequestPda(env, ak, i + 1) != q && RequestPda(env, ak, i + 1) != ak;
    EntryKept(env, l, Store(l, ak, q, pair), ak, i);
  }

  lemma ClosingClosesLog(env: Crypto, l: Ledger, ak: Pubkey, q: Pubkey, pair: (ConfidentialAccount, Request))
    requires LedgerInv(env, l) && Invariant.Closes(l, ak, q, pair) && LedgerInv(env, Store(l, ak, q, pair)) && ak != q
    ensures Closes(LogOf(env, l, ak), LogOf(env, Store(l, ak, q, pair), ak))
  {
    var l' := Store(l, ak, q, pair);
    PendingIsLast(env, l, ak, q);
    LogComplete(env, l, ak, q);
    LogComplete(env, l', ak, q);
    var log, log' := LogOf(env, l, ak), LogOf(env, l', ak);
    forall i | 0 <= i < |log| - 1
      ensures log'[i] == log[i]
    {
      ClosingKeepsEarlier(env, l, ak, q, pair, i);
    }
  }

  /** `l` to `l'` is a step of `ak`'s log: the step `call` stands for. */
  ghost predicate LogStep(env: Crypto, l: Ledger, l': Ledger, call: Call, ak: Pubkey)
    requires LedgerInv(env, l) && IsAccount(l, ak)
  {
    && LedgerInv(env, l') && IsAccount(l', ak)
    && var log, log' := LogOf(env, l, ak), LogOf(env, l', ak);
    if ak !in Advances(call) then log' == log
    else if call.Submit? then Opens(log, log')
    else Closes(log, log')
  }

  /** Opening is the step of the log that a submit stands for. */
  lemma OpeningIsLogStep(env: Crypto, l: Ledger, call: Call, pair: (ConfidentialAccount, Request))
    requires call.Submit? && LedgerInv(env, l) && IsAccount(l, call.account) && call.request !in l && call.account != call.request
    requires LedgerInv(env, Store(l, call.account, call.request, pair))
    requires !AccountAt(l, call.account).HasPending() && pair.0.requestNonce == AccountAt(l, call.account).requestNonce + 1
    requires call.request == RequestPda(env, call.account, pair.0.requestNonce) && pair.1.status == Pending
    ensures LogStep(env, l, Store(l, call.account, call.request, pair), call, call.account)
  {
    OpeningOpensLog(env, l, call.account, call.request, pair);
  }

  lemma SubmitOpensLog(env: Crypto, l: Ledger, ctx: Context, call: Call)
    requires LedgerInv(env, l) && call.Submit? && ExecSubmit(env, l, ctx, call).Ok? && IsAccount(l, call.account)
    ensures LogStep(env, l, ExecSubmit(env, l, ctx, call).value, call, call.account)
  {
    SubmitPreserves(env, l, ctx, call);
    SubmitOpens(env, l, ctx, call);
    var a := AccountAt(l, call.account);
    OpeningIsLogStep(env, l, call,
                     (OpenedAccount(a, call.request),
                      OpenedRequest(env, ConfigAt(l, call.config), call.config, a, call.account, call.request, ctx.slot,
                                    call.submit.amountHash)));
  }

  lemma CancelClosesLog(env: Crypto, l: Ledger, ctx: Context, call: Call)
    requires LedgerInv(env, l) && call.Cancel? && ExecCancel(env, l, ctx, call).Ok? && IsAccount(l, call.account)
    ensures LogStep(env, l, ExecCancel(env, l, ctx, call).value, call, call.account)
  {
    CancelPreserves(env, l, ctx, call);
    CancelCloses(env, l, ctx, call);
    ClosingClosesLog(env, l, call.account, call.request,
                     (ReleasedAccount(AccountAt(l, call.account)).value, RequestAt(l, call.request).(status := Cancelled)));
  }

  lemma ExpireClosesLog(env: Crypto, l: Ledger, ctx: Context, call: Call)
    requires LedgerInv(env, l) && call.Expire? && ExecExpire(env, l, ctx, call).Ok? && IsAccount(l, call.account)
    ensures LogStep(env, l, ExecExpire(env, l, ctx, call).value, call, call.account)
  {
    ExpirePreserves(env, l, ctx, call);
    ExpireCloses(env, l, ctx, call);
    ClosingClosesLog(env, l, call.account, call.request,
                     (ReleasedAccount(AccountAt(l, call.account)).value, RequestAt(l, call.request).(status := Status.Expired)));
  }

  lemma FinalizeClosesLog(env: Crypto, l: Ledger, ctx: Context, call: Call)
    requires LedgerInv(env, l) && call.Finalize? && ExecFinalize(env, l, ctx, call).Ok? && IsAccount(l, call.account)
    ensures LogStep(env, l, ExecFinalize(env, l, ctx, call).value, call, call.account)
  {
    FinalizePreserves(env, l, ctx, call);
    FinalizeCloses(env, l, ctx, call);
    var r := RequestAt(l, call.request);
    var b := ResultBindingOf(ConfigAt(l, call.config), r, call.request, call.finalize);
    ClosingClosesLog(env, l, call.account, call.request,
                     (ReleasedAccount(AccountAt(l, call.account)).value,
                      r.(status := Finalized, resultHash := call.finalize.resultHash, resultDigest := ResultDigest(env, b))));
  }

  /**
   * Refinement: every successful instruction advances at most one account's log, by opening an entry
   * or by closing the open one; every other log stutters.
   */
  lemma RefinesLog(env: Crypto, l: Ledger, ctx: Context, call: Call, ak: Pubkey)
    requires LedgerInv(env, l) && Exec(env, l, ctx, call).Ok? && IsAccount(l, ak)
    ensures LogStep(env, l, Exec(env, l, ctx, call).value, call, ak)
  {
    if ak !in Advances(call) {
      OtherLogsStutter(env, l, ctx, call, ak);
    } else {
      match call
      case Submit(_, _, _, _, _) => SubmitOpensLog(env, l, ctx, call);
      case Cancel(_, _, _) => CancelClosesLog(env, l, ctx, call);
      case Expire(_, _) => ExpireClosesLog(env, l, ctx, call);
      case Finalize(_, _, _, _, _) => FinalizeClosesLog(env, l, ctx, call);
    }
  }

  /**
   * The log is append-only: between any two ledgers of a run it only gets longer, every entry evolves
   * in place, and all but the last are already final.
   */
  lemma LogAppendOnly(env: Crypto, l: Ledger, l': Ledger, ak: Pubkey)
    requires LedgerInv(env, l) && LedgerInv(env, l') && Evolves(l, l') && IsAccount(l, ak)
    ensures IsAccount(l', ak)
    ensures var log, log' := LogOf(env, l, ak), LogOf(env, l', ak);
            && |log| <= |log'|
            && (forall i :: 0 <= i < |log| ==> RequestEvolves(log[i], log'[i]))
            && (forall i :: 0 <= i < |log| && (i < |log| - 1 || Idle(log)) ==> log'[i] == log[i])
  {
    assert KeyEvolves(l, l', ak);
    AccountSummarizesLog(env, l, ak);
    var log, log' := LogOf(env, l, ak), LogOf(env, l', ak);
    forall i | 0 <= i < |log|
      ensures RequestEvolves(log[i], log'[i])
    {
      assert KeyEvolves(l, l', RequestPda(env, ak, i + 1));
    }
  }

  /** A new account starts with an empty log. */
  lemma CreatedLogEmpty(env: Crypto, l: Ledger, ctx: Context, call: Call, ak: Pubkey)
    requires LedgerInv(env, l) && Exec(env, l, ctx, call).Ok? && ak !in l
    ensures var l' := Exec(env, l, ctx, call).value;
            LedgerInv(env, l') && (IsAccount(l', ak) ==> call.CreateAccount? && LogOf(env, l', ak) == [])
  {
    ExecPreserves(env, l, ctx, call);
    if ak !in Writes(call) {
      ExecFrame(env, l, ctx, call, ak);
    }
  }
}
