/** Safety over whole runs: replay, rotation and time. */
module Safety {
  import opened Types
  import opened Protocol
  import opened Ed25519
  import opened State
  import opened Coordinator
  import opened Invariant
  import opened Lifecycle
  import opened Runs
  import AccountLog

  // ---- No replay ----

  /** Event `i` of the history is the acceptance of `signature` over `message` by `operator`, settling request `k`. */
  predicate SettledBy(h: History, i: nat, k: Pubkey, operator: Pubkey, message: Bytes, signature: Bytes64) {
    i < |h| && h[i].Closed? && h[i].request == k && h[i].how == ByResult(operator, message, signature)
  }

  /**
   * Every Finalized request was settled by a signature that its transaction carried: the history holds
   * it, it verifies over exactly the canonical encoding of the request's own binding, and its key held
   * the request's own epoch.
   */
  lemma FinalizedWasSigned(env: Crypto, w: World, k: Pubkey) returns (operator: Pubkey, signature: Bytes64, i: nat)
    requires Reachable(env, w) && IsRequest(w.ledger, k) && RequestAt(w.ledger, k).status == Finalized
    ensures var r := RequestAt(w.ledger, k);
            && IsConfig(w.ledger, r.config)
            && OperatorOf(w.history, r.config, r.operatorEpoch, operator)
            && var message := EncodeResult(StoredBinding(ConfigAt(w.ledger, r.config), r, k));
            && SettledBy(w.history, i, k, operator, message, signature)
            && env.ed25519Verify(operator.bytes, message, signature)
  {
    ReachableInv(env, w);
    assert Explained(w.ledger, w.history, k);
    var j :| 0 <= j < |w.history| && Shuts(w.history[j], k);
    assert EntryOk(env, w, j);
    var how := w.history[j].how;
    operator, signature, i := how.operator, how.signature, j;
  }

  /** Along any run, one epoch of one config has one operator, and keeps it. */
  lemma OperatorFunctional(env: Crypto, w: World, actions: seq<Action>, config: Pubkey, epoch: u64, a: Pubkey, b: Pubkey)
    requires Reachable(env, w) && OperatorOf(w.history, config, epoch, a)
    requires OperatorOf(Run(env, w, actions).history, config, epoch, b)
    ensures a == b
  {
    ReachableInv(env, w);
    RunKeeps(env, w, actions);
    var h := Run(env, w, actions).history;
    OperatorOfGrows(w.history, h, config, epoch, a);
    var i :| 0 <= i < |h| && Sets(h[i], config, epoch, a);
    var j :| 0 <= j < |h| && Sets(h[j], config, epoch, b);
    assert SameSubject(h[i], h[j]) && SameSubject(h[j], h[i]);
  }

  /** The config's current operator is the one its current epoch names. */
  lemma CurrentOperator(env: Crypto, w: World, k: Pubkey)
    requires Reachable(env, w) && IsConfig(w.ledger, k)
    ensures OperatorOf(w.history, k, ConfigAt(w.ledger, k).operatorEpoch, ConfigAt(w.ledger, k).operator)
  {
    ReachableInv(env, w);
    assert Explained(w.ledger, w.history, k);
  }

  /** A signed message determines the request it settles. */
  lemma MessageNamesRequest(c: Config, r: Request, k: Pubkey, c': Config, r': Request, k': Pubkey)
    requires EncodeResult(StoredBinding(c, r, k)) == EncodeResult(StoredBinding(c', r', k'))
    ensures k == k'
  {
    EncodeResultInjective(StoredBinding(c, r, k), StoredBinding(c', r', k'));
    assert k.bytes == StoredBinding(c, r, k).request.requestPda;
    assert k'.bytes == StoredBinding(c', r', k').request.requestPda;
  }

  /** In any run a request is closed at most once, and a signed message is consumed at most once. */
  lemma MessageConsumedOnce(env: Crypto, w: World, i: nat, j: nat)
    requires Reachable(env, w) && i < j < |w.history| && w.history[i].Closed? && w.history[j].Closed?
    ensures w.history[i].request != w.history[j].request
    ensures w.history[i].how.ByResult? && w.history[j].how.ByResult? ==> w.history[i].how.message != w.history[j].how.message
  {
    ReachableInv(env, w);
    var e, f := w.history[i], w.history[j];
    assert !SameSubject(e, f);
    assert EntryOk(env, w, i) && EntryOk(env, w, j);
    if e.how.ByResult? && f.how.ByResult? && e.how.message == f.how.message {
      var r, s := RequestAt(w.ledger, e.request), RequestAt(w.ledger, f.request);
      MessageNamesRequest(ConfigAt(w.ledger, r.config), r, e.request, ConfigAt(w.ledger, s.config), s, f.request);
    }
  }

  /** A terminal request record never changes again, whatever follows. */
  lemma TerminalIsFinal(env: Crypto, w: World, actions: seq<Action>, k: Pubkey)
    requires Reachable(env, w) && IsRequest(w.ledger, k) && RequestAt(w.ledger, k).status != Pending
    ensures k in Run(env, w, actions).ledger && Run(env, w, actions).ledger[k] == w.ledger[k]
  {
    ReachableInv(env, w);
    RunKeeps(env, w, actions);
    assert KeyEvolves(w.ledger, Run(env, w, actions).ledger, k);
  }

  /**
   * Over whole runs an account is its append-only log: at every reachable world the record summarizes
   * the log, and whatever follows only evolves the last entry and appends.
   */
  lemma AccountIsItsLog(env: Crypto, w: World, actions: seq<Action>, ak: Pubkey)
    requires Reachable(env, w) && IsAccount(w.ledger, ak)
    ensures var w' := Run(env, w, actions);
            && LedgerInv(env, w.ledger) && LedgerInv(env, w'.ledger) && IsAccount(w'.ledger, ak)
            && var log, log' := AccountLog.LogOf(env, w.ledger, ak), AccountLog.LogOf(env, w'.ledger, ak);
            && AccountLog.WellFormed(log)
            && AccountAt(w.ledger, ak).requestNonce == |log|
            && AccountAt(w.ledger, ak).stateVersion == AccountLog.CountTerminal(log)
            && (AccountAt(w.ledger, ak).HasPending() <==> !AccountLog.Idle(log))
            && |log| <= |log'|
            && (forall i :: 0 <= i < |log| ==> RequestEvolves(log[i], log'[i]))
            && (forall i :: 0 <= i < |log| && (i < |log| - 1 || AccountLog.Idle(log)) ==> log'[i] == log[i])
  {
    ReachableInv(env, w);
    RunKeeps(env, w, actions);
    AccountLog.AccountSummarizesLog(env, w.ledger, ak);
    AccountLog.LogAppendOnly(env, w.ledger, Run(env, w, actions).ledger, ak);
  }

  // ---- Rotation is final for in-flight work ----

  /** An unfinalized request from an epoch that is over. */
  predicate Stale(l: Ledger, k: Pubkey) {
    && IsRequest(l, k)
    && IsConfig(l, RequestAt(l, k).config)
    && RequestAt(l, k).operatorEpoch < ConfigAt(l, RequestAt(l, k).config).operatorEpoch
    && RequestAt(l, k).status != Finalized
  }

  lemma StaleEvolves(l: Ledger, l': Ledger, k: Pubkey)
    requires Stale(l, k) && Evolves(l, l') && IsRequest(l', k) && RequestAt(l', k).status != Finalized
    ensures Stale(l', k)
  {
    assert KeyEvolves(l, l', k) && KeyEvolves(l, l', RequestAt(l, k).config);
  }

  lemma StaleStays(env: Crypto, l: Ledger, ctx: Context, call: Call, k: Pubkey)
    requires LedgerInv(env, l) && Stale(l, k) && Exec(env, l, ctx, call).Ok?
    ensures Stale(Exec(env, l, ctx, call).value, k)
  {
    var l' := Exec(env, l, ctx, call).value;
    ExecPreserves(env, l, ctx, call);
    assert KeyEvolves(l, l', k);
    UnfinalizedStays(env, l, ctx, call, k);
    StaleEvolves(l, l', k);
  }

  /** Only a finalize of that very request, at its own epoch, finalizes it. */
  lemma UnfinalizedStays(env: Crypto, l: Ledger, ctx: Context, call: Call, k: Pubkey)
    requires Exec(env, l, ctx, call).Ok? && Stale(l, k)
    requires IsRequest(Exec(env, l, ctx, call).value, k)
    ensures RequestAt(Exec(env, l, ctx, call).value, k).status != Finalized
  {
    if k !in Writes(call) {
      ExecFrame(env, l, ctx, call, k);
    } else {
      match call
      case Submit(_, _, _, _, _) => SubmitOpens(env, l, ctx, call);
      case Cancel(_, _, _) => CancelCloses(env, l, ctx, call);
      case Expire(_, _) => ExpireCloses(env, l, ctx, call);
      case Finalize(_, _, _, _, _) => FinalizeCloses(env, l, ctx, call);
      case _ =>
    }
  }

  lemma {:induction false} StaleThroughTransaction(env: Crypto, w: World, tx: Transaction, i: nat, n: nat, k: Pubkey)
    requires WorldInv(env, w) && PrecompilesAccept(env, tx.ixs)
    requires i <= n <= |tx.invocations| && InvokeUpTo(env, w, tx, n).Ok?
    requires InvokeUpTo(env, w, tx, i).Ok? ==> Stale(InvokeUpTo(env, w, tx, i).value.ledger, k)
    ensures Stale(InvokeUpTo(env, w, tx, n).value.ledger, k)
    decreases n
  {
    if i < n {
      StaleThroughTransaction(env, w, tx, i, n - 1, k);
      InvokeUpToKeeps(env, w, tx, n - 1);
      var mid := InvokeUpTo(env, w, tx, n - 1).value;
      StaleStays(env, mid.ledger, Context(mid.slot, tx.ixs, tx.invocations[n - 1].top), tx.invocations[n - 1].call, k);
    }
  }

  lemma {:induction false} StaleThroughRun(env: Crypto, w: World, actions: seq<Action>, k: Pubkey)
    requires WorldInv(env, w) && Stale(w.ledger, k)
    ensures Stale(Run(env, w, actions).ledger, k)
    decreases |actions|
  {
    if actions != [] {
      StepKeeps(env, w, actions[0]);
      match actions[0] {
        case Advance(_) =>
        case Send(tx) =>
          if Commits(env, w, tx) {
            StaleThroughTransaction(env, w, tx, 0, |tx.invocations|, k);
          }
      }
      StaleThroughRun(env, Step(env, w, actions[0]), actions[1..], k);
    }
  }

  /** Call number `i` of the transaction rotates the operator of the config of the then pending request `k`. */
  predicate RotatesUnder(env: Crypto, w: World, tx: Transaction, i: nat, k: Pubkey)
    requires i < |tx.invocations|
  {
    && InvokeUpTo(env, w, tx, i).Ok?
    && var l := InvokeUpTo(env, w, tx, i).value.ledger;
    && IsRequest(l, k) && RequestAt(l, k).status == Pending
    && tx.invocations[i].call.RotateOperator? && tx.invocations[i].call.config == RequestAt(l, k).config
  }

  lemma StaleAfterRotation(env: Crypto, w: World, tx: Transaction, i: nat, k: Pubkey)
    requires WorldInv(env, w) && PrecompilesAccept(env, tx.ixs) && i < |tx.invocations| && RotatesUnder(env, w, tx, i, k)
    requires InvokeUpTo(env, w, tx, i + 1).Ok?
    ensures Stale(InvokeUpTo(env, w, tx, i + 1).value.ledger, k)
  {
    InvokeUpToKeeps(env, w, tx, i);
    RotationStales(env, InvokeUpTo(env, w, tx, i).value, tx.ixs, tx.invocations[i], k);
  }

  lemma StaleAfterTransaction(env: Crypto, w: World, tx: Transaction, i: nat, k: Pubkey)
    requires WorldInv(env, w) && Commits(env, w, tx) && i < |tx.invocations| && RotatesUnder(env, w, tx, i, k)
    ensures Stale(Transact(env, w, tx).ledger, k)
  {
    PrefixSucceeds(env, w, tx, i + 1, |tx.invocations|);
    StaleAfterRotation(env, w, tx, i, k);
    StaleThroughTransaction(env, w, tx, i + 1, |tx.invocations|, k);
  }

  /**
   * A request that is Pending when a rotation of its config's operator succeeds is never Finalized
   * afterwards: not by the rest of the same transaction, and not by any continuation.
   */
  lemma RotationIsFinal(env: Crypto, w: World, tx: Transaction, i: nat, actions: seq<Action>, k: Pubkey)
    requires Reachable(env, w) && Commits(env, w, tx)
    requires i < |tx.invocations| && RotatesUnder(env, w, tx, i, k)
    ensures var l' := Run(env, Transact(env, w, tx), actions).ledger;
            IsRequest(l', k) && RequestAt(l', k).status != Finalized
  {
    ReachableInv(env, w);
    StaleAfterTransaction(env, w, tx, i, k);
    StepKeeps(env, w, Send(tx));
    StaleThroughRun(env, Transact(env, w, tx), actions, k);
  }

  lemma RotationStales(env: Crypto, w: World, ixs: Instructions, inv: Invocation, k: Pubkey)
    requires LedgerInv(env, w.ledger) && Invoke(env, w, ixs, inv).Ok?
    requires IsRequest(w.ledger, k) && RequestAt(w.ledger, k).status == Pending
    requires inv.call.RotateOperator? && inv.call.config == RequestAt(w.ledger, k).config
    ensures Stale(Invoke(env, w, ixs, inv).value.ledger, k)
  {
    assert RecordOk(env, w.ledger, k);
    ExecFrame(env, w.ledger, Context(w.slot, ixs, inv.top), inv.call, k);
  }

  /** The epoch never decreases over a run. */
  lemma EpochMonotone(env: Crypto, w: World, actions: seq<Action>, k: Pubkey)
    requires Reachable(env, w) && IsConfig(w.ledger, k)
    ensures var l' := Run(env, w, actions).ledger;
            IsConfig(l', k) && ConfigAt(w.ledger, k).operatorEpoch <= ConfigAt(l', k).operatorEpoch
  {
    ReachableInv(env, w);
    RunKeeps(env, w, actions);
    assert KeyEvolves(w.ledger, Run(env, w, actions).ledger, k);
  }

  // ---- Time discipline ----

  /**
   * A request lives exactly its config's lifetime, which never changes; results and cancellations fall
   * inside [created, expiry), expirations at or after expiry.
   */
  lemma ClosedInTime(env: Crypto, w: World, i: nat)
    requires Reachable(env, w) && i < |w.history| && w.history[i].Closed?
    ensures var e := w.history[i];
            && IsRequest(w.ledger, e.request)
            && var r := RequestAt(w.ledger, e.request);
            && IsConfig(w.ledger, r.config)
            && r.expirySlot == r.createdSlot + ConfigAt(w.ledger, r.config).maxRequestLifetimeSlots
            && (r.status == Finalized <==> e.how.ByResult?)
            && (r.status == Cancelled <==> e.how.ByOwner?)
            && (r.status == Status.Expired <==> e.how.ByTimeout?)
            && r.createdSlot <= e.slot
            && (e.slot < r.expirySlot <==> r.status != Status.Expired)
  {
    ReachableInv(env, w);
    assert EntryOk(env, w, i);
    assert RecordOk(env, w.ledger, w.history[i].request);
  }

  lemma LifetimeImmutable(env: Crypto, w: World, actions: seq<Action>, k: Pubkey)
    requires Reachable(env, w) && IsConfig(w.ledger, k)
    ensures var l' := Run(env, w, actions).ledger;
            IsConfig(l', k) && ConfigAt(l', k).maxRequestLifetimeSlots == ConfigAt(w.ledger, k).maxRequestLifetimeSlots
  {
    ReachableInv(env, w);
    RunKeeps(env, w, actions);
    assert KeyEvolves(w.ledger, Run(env, w, actions).ledger, k);
  }

  /** The opening of request `k` in a history that contains its record. */
  lemma OpeningOf(env: Crypto, w: World, k: Pubkey) returns (j: nat)
    requires WorldInv(env, w) && IsRequest(w.ledger, k)
    ensures j < |w.history| && Opens(w.history[j], k) && w.history[j].slot == RequestAt(w.ledger, k).createdSlot
  {
    assert Explained(w.ledger, w.history, k);
    j :| 0 <= j < |w.history| && Opens(w.history[j], k);
    assert EntryOk(env, w, j);
  }

  /** A request is opened once. */
  lemma OpenedOnce(w: World, i: nat, j: nat, k: Pubkey)
    requires Distinct(w.history) && i < |w.history| && j < |w.history|
    requires Opens(w.history[i], k) && Opens(w.history[j], k)
    ensures i == j
  {
  }

  /** The closing of request number `n - 1` comes before the opening of request number `n > 1`. */
  lemma PreviousFirst(env: Crypto, w: World, k: Pubkey) returns (previous: Pubkey, c: nat, j: nat)
    requires WorldInv(env, w) && IsRequest(w.ledger, k) && RequestAt(w.ledger, k).requestNonce > 1
    ensures IsRequest(w.ledger, previous)
    ensures RequestAt(w.ledger, previous).confidentialAccount == RequestAt(w.ledger, k).confidentialAccount
    ensures RequestAt(w.ledger, previous).requestNonce == RequestAt(w.ledger, k).requestNonce - 1
    ensures previous == RequestPda(env, RequestAt(w.ledger, k).confidentialAccount, RequestAt(w.ledger, k).requestNonce - 1)
    ensures c < j < |w.history| && Shuts(w.history[c], previous) && Opens(w.history[j], k)
    ensures w.history[j].slot == RequestAt(w.ledger, k).createdSlot
  {
    var r := RequestAt(w.ledger, k);
    previous := RequestPda(env, r.confidentialAccount, r.requestNonce - 1);
    assert RecordOk(env, w.ledger, k) && RecordOk(env, w.ledger, r.confidentialAccount);
    assert HasRequest(env, w.ledger, r.confidentialAccount, r.requestNonce - 1);
    j := OpeningOf(env, w, k);
    assert EntryOk(env, w, j);
    var c' :| 0 <= c' < j && Shuts(w.history[..j][c'], previous);
    c := c';
  }

  lemma OpenedBeforeClosed(env: Crypto, w: World, c: nat, k: Pubkey) returns (o: nat)
    requires WorldInv(env, w) && c < |w.history| && Shuts(w.history[c], k)
    ensures o < c && Opens(w.history[o], k)
  {
    assert EntryOk(env, w, c);
    var o' :| 0 <= o' < c && Opens(w.history[..c][o'], k);
    o := o';
  }

  /** Between two requests of one account, the closing of the earlier precedes the opening of the later. */
  lemma {:induction false} ClosedBeforeOpened(env: Crypto, w: World, k1: Pubkey, k2: Pubkey) returns (i: nat, j: nat)
    requires WorldInv(env, w) && IsRequest(w.ledger, k1) && IsRequest(w.ledger, k2)
    requires RequestAt(w.ledger, k1).confidentialAccount == RequestAt(w.ledger, k2).confidentialAccount
    requires RequestAt(w.ledger, k1).requestNonce < RequestAt(w.ledger, k2).requestNonce
    ensures i < j < |w.history| && Shuts(w.history[i], k1) && Opens(w.history[j], k2)
    ensures w.history[j].slot == RequestAt(w.ledger, k2).createdSlot
    decreases RequestAt(w.ledger, k2).requestNonce
  {
    assert RecordOk(env, w.ledger, k1);
    var previous, c;
    previous, c, j := PreviousFirst(env, w, k2);
    if RequestAt(w.ledger, k1).requestNonce == RequestAt(w.ledger, previous).requestNonce {
      i := c;
    } else {
      var o := OpenedBeforeClosed(env, w, c, previous);
      var o';
      i, o' := ClosedBeforeOpened(env, w, k1, previous);
      OpenedOnce(w, o, o', previous);
    }
  }

  /** The pending intervals of one account's requests are disjoint and ordered by nonce. */
  lemma IntervalsDisjoint(env: Crypto, w: World, k1: Pubkey, k2: Pubkey)
    requires Reachable(env, w) && IsRequest(w.ledger, k1) && IsRequest(w.ledger, k2)
    requires RequestAt(w.ledger, k1).confidentialAccount == RequestAt(w.ledger, k2).confidentialAccount
    requires RequestAt(w.ledger, k1).requestNonce < RequestAt(w.ledger, k2).requestNonce
    ensures RequestAt(w.ledger, k1).status != Pending
    ensures exists i, j :: 0 <= i < j < |w.history| && Shuts(w.history[i], k1) && Opens(w.history[j], k2)
                           && RequestAt(w.ledger, k1).createdSlot <= w.history[i].slot <= RequestAt(w.ledger, k2).createdSlot
  {
    ReachableInv(env, w);
    var i, j := ClosedBeforeOpened(env, w, k1, k2);
    assert EntryOk(env, w, i);
  }
}
