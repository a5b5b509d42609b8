/** Transactions, the clock, the event history, and the invariant of every run. */
module Runs {
  import opened Types
  import opened Protocol
  import opened Errors
  import opened Ed25519
  import opened State
  import opened Coordinator
  import opened Invariant

  /** How a request left Pending; a result, with the signature its transaction carried. */
  datatype Closing =
    | ByOwner
    | ByTimeout
    | ByResult(operator: Pubkey, message: Bytes, signature: Bytes64)

  /** The history a run leaves behind; no instruction reads it. */
  datatype Event =
    | OperatorSet(config: Pubkey, epoch: u64, operator: Pubkey, slot: u64)
    | Opened(request: Pubkey, slot: u64)
    | Closed(request: Pubkey, how: Closing, slot: u64)

  type History = seq<Event>

  datatype World = World(ledger: Ledger, slot: u64, history: History)

  /** A coordinator call made while top-level instruction number `top` runs. */
  datatype Invocation = Invocation(top: u16, call: Call)

  /** The instruction list every call can inspect, and the coordinator calls in execution order. */
  datatype Transaction = Transaction(ixs: Instructions, invocations: seq<Invocation>)

  /** What happens next: the clock moves (never back), or a transaction is sent. */
  datatype Action = Advance(slot: u64) | Send(tx: Transaction)

  /** A successful finalize has a signature directly before it. */
  lemma FinalizeCarriesSignature(env: Crypto, l: Ledger, ctx: Context, call: Call)
    requires call.Finalize? && ExecFinalize(env, l, ctx, call).Ok?
    ensures IsConfig(l, call.config) && IsRequest(l, call.request) && HasSignature(ctx.ixs, ctx.current)
  {
    FinalizeCloses(env, l, ctx, call);
    var c := ConfigAt(l, call.config);
    IntrospectionExact(ctx.ixs, ctx.current, c.operator,
                       EncodeResult(ResultBindingOf(c, RequestAt(l, call.request), call.request, call.finalize)));
  }

  function EventsOf(env: Crypto, l: Ledger, ctx: Context, call: Call): History
    requires Exec(env, l, ctx, call).Ok?
  {
    match call
    case InitializeConfig(_, _, k, init) => [OperatorSet(k, 1, init.operator, ctx.slot)]
    case RotateOperator(_, k, op) => [OperatorSet(k, ConfigAt(l, k).operatorEpoch + 1, op, ctx.slot)]
    case Submit(_, _, _, q, _) => [Opened(q, ctx.slot)]
    case Cancel(_, _, q) => [Closed(q, ByOwner, ctx.slot)]
    case Expire(_, q) => [Closed(q, ByTimeout, ctx.slot)]
    case Finalize(ck, _, q, _, args) =>
      FinalizeCarriesSignature(env, l, ctx, call);
      var c := ConfigAt(l, ck);
      var message := EncodeResult(ResultBindingOf(c, RequestAt(l, q), q, args));
      [Closed(q, ByResult(c.operator, message, SignatureIn(ctx.ixs, ctx.current)), ctx.slot)]
    case _ => []
  }

  function Invoke(env: Crypto, w: World, ixs: Instructions, inv: Invocation): Result<World, Error> {
    var ctx := Context(w.slot, ixs, inv.top);
    match Exec(env, w.ledger, ctx, inv.call)
    case Err(e) => Err(e)
    case Ok(l') => Ok(World(l', w.slot, w.history + EventsOf(env, w.ledger, ctx, inv.call)))
  }

  /** The first `n` calls in order, each by `step`, stopping at the first error. */
  function CallsBy(step: (World, Invocation) -> Result<World, Error>, w: World, calls: seq<Invocation>, n: nat): Result<World, Error>
    requires n <= |calls|
  {
    if n == 0 then
      Ok(w)
    else
      var mid :- CallsBy(step, w, calls, n - 1);
      step(mid, calls[n - 1])
  }

  /** The first `n` calls of a transaction, stopping at the first error. */
  function InvokeUpTo(env: Crypto, w: World, tx: Transaction, n: nat): Result<World, Error>
    requires n <= |tx.invocations|
  {
    CallsBy((mid, inv) => Invoke(env, mid, tx.ixs, inv), w, tx.invocations, n)
  }

  predicate Commits(env: Crypto, w: World, tx: Transaction) {
    PrecompilesAccept(env, tx.ixs) && InvokeUpTo(env, w, tx, |tx.invocations|).Ok?
  }

  /** A transaction is atomic: all of its calls, or nothing. */
  function Transact(env: Crypto, w: World, tx: Transaction): World {
    if Commits(env, w, tx) then InvokeUpTo(env, w, tx, |tx.invocations|).value else w
  }

  function Step(env: Crypto, w: World, action: Action): World {
    match action
    case Advance(slot) => if w.slot <= slot then w.(slot := slot) else w
    case Send(tx) => Transact(env, w, tx)
  }

  function Run(env: Crypto, w: World, actions: seq<Action>): World
    decreases |actions|
  {
    if actions == [] then w else Run(env, Step(env, w, actions[0]), actions[1..])
  }

  function Genesis(slot: u64): World {
    World(map[], slot, [])
  }

  /** Some run from an empty ledger ends in `w`. */
  ghost predicate Reachable(env: Crypto, w: World) {
    exists slot: u64, actions :: Run(env, Genesis(slot), actions) == w
  }

  // ---- The history invariant ----

  predicate Sets(e: Event, config: Pubkey, epoch: u64, operator: Pubkey) {
    e.OperatorSet? && e.config == config && e.epoch == epoch && e.operator == operator
  }

  predicate Opens(e: Event, k: Pubkey) {
    e.Opened? && e.request == k
  }

  predicate Shuts(e: Event, k: Pubkey) {
    e.Closed? && e.request == k
  }

  /** `operator` held the operator key of `config` at `epoch`. */
  ghost predicate OperatorOf(h: History, config: Pubkey, epoch: u64, operator: Pubkey) {
    exists i :: 0 <= i < |h| && Sets(h[i], config, epoch, operator)
  }

  ghost predicate HasOpened(h: History, k: Pubkey) {
    exists i :: 0 <= i < |h| && Opens(h[i], k)
  }

  ghost predicate HasClosed(h: History, k: Pubkey) {
    exists i :: 0 <= i < |h| && Shuts(h[i], k)
  }

  predicate SameSubject(e: Event, f: Event) {
    match (e, f)
    case (OperatorSet(c, n, _, _), OperatorSet(c', n', _, _)) => c == c' && n == n'
    case (Opened(k, _), Opened(k', _)) => k == k'
    case (Closed(k, _, _), Closed(k', _, _)) => k == k'
    case _ => false
  }

  /** The request's status, the slot and, for a result, the message and its verified signature are what the event says. */
  ghost predicate ClosedOk(env: Crypto, l: Ledger, h: History, k: Pubkey, how: Closing, slot: u64) {
    && IsRequest(l, k)
    && var r := RequestAt(l, k);
    && IsConfig(l, r.config)
    && r.createdSlot <= slot
    && match how
       case ByOwner => r.status == Cancelled && slot < r.expirySlot
       case ByTimeout => r.status == Status.Expired && slot >= r.expirySlot
       case ByResult(op, m, sig) =>
         && r.status == Finalized && slot < r.expirySlot
         && m == EncodeResult(StoredBinding(ConfigAt(l, r.config), r, k))
         && OperatorOf(h, r.config, r.operatorEpoch, op)
         && env.ed25519Verify(op.bytes, m, sig)
  }

  ghost predicate EventOk(env: Crypto, l: Ledger, h: History, e: Event) {
    match e
    case OperatorSet(k, n, op, _) =>
      IsConfig(l, k) && 1 <= n <= ConfigAt(l, k).operatorEpoch && (n == ConfigAt(l, k).operatorEpoch ==> op == ConfigAt(l, k).operator)
    case Opened(k, slot) => IsRequest(l, k) && RequestAt(l, k).createdSlot == slot
    case Closed(k, how, slot) => ClosedOk(env, l, h, k, how, slot)
  }

  /** A closing follows its opening, and an opening follows the closing of the account's previous request. */
  ghost predicate Preceded(env: Crypto, l: Ledger, h: History, e: Event) {
    match e
    case OperatorSet(_, _, _, _) => true
    case Opened(k, _) =>
      && IsRequest(l, k)
      && var r := RequestAt(l, k);
      (r.requestNonce > 1 ==> HasClosed(h, RequestPda(env, r.confidentialAccount, r.requestNonce - 1)))
    case Closed(k, _, _) => HasOpened(h, k)
  }

  /** The history explains the record at `k`. */
  ghost predicate Explained(l: Ledger, h: History, k: Pubkey)
    requires k in l
  {
    match l[k]
    case ConfigRecord(c) => OperatorOf(h, k, c.operatorEpoch, c.operator)
    case AccountRecord(_) => true
    case RequestRecord(r) => HasOpened(h, k) && (r.status != Pending ==> HasClosed(h, k))
  }

  ghost predicate EntryOk(env: Crypto, w: World, i: nat)
    requires i < |w.history|
  {
    && EventOk(env, w.ledger, w.history, w.history[i])
    && Preceded(env, w.ledger, w.history[..i], w.history[i])
    && w.history[i].slot <= w.slot
  }

  ghost predicate Distinct(h: History) {
    forall i, j :: 0 <= i < j < |h| ==> !SameSubject(h[i], h[j]) && h[i].slot <= h[j].slot
  }

  ghost predicate AllExplained(w: World) {
    forall k {:trigger Explained(w.ledger, w.history, k)} :: k in w.ledger ==> Explained(w.ledger, w.history, k)
  }

  ghost predicate HistoryInv(env: Crypto, w: World) {
    && (forall i: nat {:trigger EntryOk(env, w, i)} :: i < |w.history| ==> EntryOk(env, w, i))
    && Distinct(w.history)
    && AllExplained(w)
  }

  ghost predicate WorldInv(env: Crypto, w: World) {
    LedgerInv(env, w.ledger) && HistoryInv(env, w)
  }

  // ---- Histories only grow ----

  lemma OperatorOfGrows(h: History, h': History, config: Pubkey, epoch: u64, operator: Pubkey)
    requires h <= h' && OperatorOf(h, config, epoch, operator)
    ensures OperatorOf(h', config, epoch, operator)
  {
  }

  lemma OpenedGrows(h: History, h': History, k: Pubkey)
    requires h <= h' && HasOpened(h, k)
    ensures HasOpened(h', k)
  {
  }

  lemma ClosedOkEvolves(env: Crypto, l: Ledger, l': Ledger, h: History, h': History, k: Pubkey, how: Closing, slot: u64)
    requires ClosedOk(env, l, h, k, how, slot) && Evolves(l, l') && h <= h'
    ensures ClosedOk(env, l', h', k, how, slot)
  {
    var r := RequestAt(l, k);
    assert KeyEvolves(l, l', k) && KeyEvolves(l, l', r.config);
    BindingStable(ConfigAt(l, r.config), ConfigAt(l', r.config), r, r, k);
    if how.ByResult? {
      OperatorOfGrows(h, h', r.config, r.operatorEpoch, how.operator);
    }
  }

  lemma EventOkEvolves(env: Crypto, l: Ledger, l': Ledger, h: History, h': History, e: Event)
    requires EventOk(env, l, h, e) && Evolves(l, l') && h <= h'
    ensures EventOk(env, l', h', e)
  {
    match e
    case OperatorSet(k, _, _, _) => assert KeyEvolves(l, l', k);
    case Opened(k, _) => assert KeyEvolves(l, l', k);
    case Closed(k, how, slot) => ClosedOkEvolves(env, l, l', h, h', k, how, slot);
  }

  lemma PrecededEvolves(env: Crypto, l: Ledger, l': Ledger, h: History, e: Event)
    requires Preceded(env, l, h, e) && Evolves(l, l')
    ensures Preceded(env, l', h, e)
  {
    if e.Opened? {
      assert KeyEvolves(l, l', e.request);
    }
  }

  /** Earlier entries stay in order when the ledger evolves and the history grows by at most one event. */
  lemma EntriesEvolve(env: Crypto, w: World, w': World, i: nat)
    requires i < |w.history| && EntryOk(env, w, i)
    requires Evolves(w.ledger, w'.ledger) && w.history <= w'.history && w.slot <= w'.slot
    ensures EntryOk(env, w', i)
  {
    assert w'.history[..i] == w.history[..i];
    EventOkEvolves(env, w.ledger, w'.ledger, w.history, w'.history, w.history[i]);
    PrecededEvolves(env, w.ledger, w'.ledger, w.history[..i], w.history[i]);
  }

  /** Appending one well-formed, new event keeps the history invariant. */
  lemma AppendKeeps(env: Crypto, w: World, l': Ledger, e: Event)
    requires HistoryInv(env, w) && Evolves(w.ledger, l')
    requires e.slot == w.slot
    requires forall i :: 0 <= i < |w.history| ==> !SameSubject(w.history[i], e)
    requires EventOk(env, l', w.history + [e], e) && Preceded(env, l', w.history, e)
    requires AllExplained(World(l', w.slot, w.history + [e]))
    ensures HistoryInv(env, World(l', w.slot, w.history + [e]))
  {
    var w' := World(l', w.slot, w.history + [e]);
    forall i: nat | i < |w'.history|
      ensures EntryOk(env, w', i)
    {
      if i < |w.history| {
        assert EntryOk(env, w, i);
        EntriesEvolve(env, w, w', i);
      } else {
        assert w'.history[..i] == w.history;
      }
    }
    forall i, j | 0 <= i < j < |w'.history|
      ensures !SameSubject(w'.history[i], w'.history[j]) && w'.history[i].slot <= w'.history[j].slot
    {
      assert EntryOk(env, w, i);
    }
  }

  /** An untouched record stays explained when the history grows. */
  lemma ExplainedGrows(l: Ledger, l': Ledger, h: History, h': History, k: Pubkey)
    requires k in l && k in l' && l'[k] == l[k] && h <= h' && Explained(l, h, k)
    ensures Explained(l', h', k)
  {
  }

  lemma InitializeHistory(env: Crypto, w: World, ctx: Context, call: Call)
    requires WorldInv(env, w) && ctx.slot == w.slot && call.InitializeConfig? && ExecInitialize(env, w.ledger, call).Ok?
    ensures HistoryInv(env, World(ExecInitialize(env, w.ledger, call).value, w.slot, w.history + EventsOf(env, w.ledger, ctx, call)))
  {
    var l' := ExecInitialize(env, w.ledger, call).value;
    var e := OperatorSet(call.config, 1, call.init.operator, ctx.slot);
    var h' := w.history + [e];
    InitializePreserves(env, w.ledger, call);
    forall i | 0 <= i < |w.history|
      ensures !SameSubject(w.history[i], e)
    {
      assert EntryOk(env, w, i);
    }
    assert Sets(h'[|w.history|], call.config, 1, call.init.operator);
    forall k | k in l'
      ensures Explained(l', h', k)
    {
      if k != call.config {
        assert Explained(w.ledger, w.history, k);
        ExplainedGrows(w.ledger, l', w.history, h', k);
      }
    }
    AppendKeeps(env, w, l', e);
  }

  lemma RotateHistory(env: Crypto, w: World, ctx: Context, call: Call)
    requires WorldInv(env, w) && ctx.slot == w.slot && call.RotateOperator? && ExecRotate(w.ledger, call).Ok?
    ensures HistoryInv(env, World(ExecRotate(w.ledger, call).value, w.slot, w.history + EventsOf(env, w.ledger, ctx, call)))
  {
    var l' := ExecRotate(w.ledger, call).value;
    var e := OperatorSet(call.config, ConfigAt(w.ledger, call.config).operatorEpoch + 1, call.newOperator, ctx.slot);
    var h' := w.history + [e];
    AdminPreserves(env, w.ledger, ctx, call);
    forall i | 0 <= i < |w.history|
      ensures !SameSubject(w.history[i], e)
    {
      assert EntryOk(env, w, i);
    }
    assert Sets(h'[|w.history|], e.config, e.epoch, e.operator);
    forall k | k in l'
      ensures Explained(l', h', k)
    {
      if k != call.config {
        assert Explained(w.ledger, w.history, k);
        ExplainedGrows(w.ledger, l', w.history, h', k);
      }
    }
    AppendKeeps(env, w, l', e);
  }

  /** An instruction without an event leaves operators and requests as they are. */
  lemma QuietHistory(env: Crypto, w: World, ctx: Context, call: Call)
    requires call.SetPaused? || call.SetKeyVersion? || call.CreateAccount?
    requires WorldInv(env, w) && Exec(env, w.ledger, ctx, call).Ok?
    ensures HistoryInv(env, World(Exec(env, w.ledger, ctx, call).value, w.slot, w.history))
  {
    var l' := Exec(env, w.ledger, ctx, call).value;
    var w' := World(l', w.slot, w.history);
    ExecPreserves(env, w.ledger, ctx, call);
    forall i: nat | i < |w'.history|
      ensures EntryOk(env, w', i)
    {
      assert EntryOk(env, w, i);
      EntriesEvolve(env, w, w', i);
    }
    forall k | k in l'
      ensures Explained(l', w.history, k)
    {
      if k in w.ledger {
        assert Explained(w.ledger, w.history, k);
      }
    }
  }

  /** Opening a request appends the event that says so. */
  lemma OpenHistory(env: Crypto, w: World, ak: Pubkey, q: Pubkey, pair: (ConfidentialAccount, Request))
    requires WorldInv(env, w) && IsAccount(w.ledger, ak) && !AccountAt(w.ledger, ak).HasPending() && q !in w.ledger
    requires Evolves(w.ledger, Store(w.ledger, ak, q, pair))
    requires pair.1.confidentialAccount == ak && pair.1.requestNonce == AccountAt(w.ledger, ak).requestNonce + 1
    requires pair.1.status == Pending && pair.1.createdSlot == w.slot
    ensures HistoryInv(env, World(Store(w.ledger, ak, q, pair), w.slot, w.history + [Opened(q, w.slot)]))
  {
    var l' := Store(w.ledger, ak, q, pair);
    var e := Opened(q, w.slot);
    var h' := w.history + [e];
    forall i | 0 <= i < |w.history|
      ensures !SameSubject(w.history[i], e)
    {
      assert EntryOk(env, w, i);
    }
    assert Opens(h'[|w.history|], q);
    PreviousClosed(env, w, ak);
    forall k | k in l'
      ensures Explained(l', h', k)
    {
      if k != q && k != ak {
        assert Explained(w.ledger, w.history, k);
        ExplainedGrows(w.ledger, l', w.history, h', k);
      }
    }
    AppendKeeps(env, w, l', e);
  }

  lemma SubmitHistory(env: Crypto, w: World, ctx: Context, call: Call)
    requires WorldInv(env, w) && ctx.slot == w.slot && call.Submit? && ExecSubmit(env, w.ledger, ctx, call).Ok?
    ensures HistoryInv(env, World(ExecSubmit(env, w.ledger, ctx, call).value, w.slot, w.history + EventsOf(env, w.ledger, ctx, call)))
  {
    var l := w.ledger;
    SubmitOpens(env, l, ctx, call);
    SubmitPreserves(env, l, ctx, call);
    var c, a := ConfigAt(l, call.config), AccountAt(l, call.account);
    OpenHistory(env, w, call.account, call.request,
                (OpenedAccount(a, call.request),
                 OpenedRequest(env, c, call.config, a, call.account, call.request, ctx.slot, call.submit.amountHash)));
  }

  /** The last request of an idle account has been closed. */
  lemma PreviousClosed(env: Crypto, w: World, ak: Pubkey)
    requires WorldInv(env, w) && IsAccount(w.ledger, ak) && !AccountAt(w.ledger, ak).HasPending()
    ensures var n := AccountAt(w.ledger, ak).requestNonce; n >= 1 ==> HasClosed(w.history, RequestPda(env, ak, n))
  {
    var n := AccountAt(w.ledger, ak).requestNonce;
    if n >= 1 {
      assert RecordOk(env, w.ledger, ak);
      assert HasRequest(env, w.ledger, ak, n);
      var q := RequestPda(env, ak, n);
      IdleLock(env, w.ledger, ak, q);
      assert RecordOk(env, w.ledger, q);
      assert Explained(w.ledger, w.history, q);
    }
  }

  /** Closing a request appends the event that describes how. */
  lemma CloseHistory(env: Crypto, w: World, ak: Pubkey, q: Pubkey, pair: (ConfidentialAccount, Request), e: Event)
    requires WorldInv(env, w) && Closes(w.ledger, ak, q, pair) && ak != q
    requires Evolves(w.ledger, Store(w.ledger, ak, q, pair))
    requires e.Closed? && e.request == q && e.slot == w.slot
    requires EventOk(env, Store(w.ledger, ak, q, pair), w.history + [e], e)
    ensures HistoryInv(env, World(Store(w.ledger, ak, q, pair), w.slot, w.history + [e]))
  {
    var l' := Store(w.ledger, ak, q, pair);
    var h' := w.history + [e];
    forall i | 0 <= i < |w.history|
      ensures !SameSubject(w.history[i], e)
    {
      assert EntryOk(env, w, i);
    }
    assert Shuts(h'[|w.history|], q);
    assert Explained(w.ledger, w.history, q);
    OpenedGrows(w.history, h', q);
    forall k | k in l'
      ensures Explained(l', h', k)
    {
      if k != q && k != ak {
        assert Explained(w.ledger, w.history, k);
        ExplainedGrows(w.ledger, l', w.history, h', k);
      }
    }
    AppendKeeps(env, w, l', e);
  }

  /** A pending request was created no later than now, under an existing config. */
  lemma PendingFacts(env: Crypto, w: World, q: Pubkey)
    requires WorldInv(env, w) && IsRequest(w.ledger, q)
    ensures RequestAt(w.ledger, q).createdSlot <= w.slot
    ensures IsConfig(w.ledger, RequestAt(w.ledger, q).config)
    ensures IsAccount(w.ledger, RequestAt(w.ledger, q).confidentialAccount)
  {
    assert RecordOk(env, w.ledger, q) && Explained(w.ledger, w.history, q);
    var i :| 0 <= i < |w.history| && Opens(w.history[i], q);
    assert EntryOk(env, w, i);
  }

  lemma CancelHistory(env: Crypto, w: World, ctx: Context, call: Call)
    requires WorldInv(env, w) && ctx.slot == w.slot && call.Cancel? && ExecCancel(env, w.ledger, ctx, call).Ok?
    ensures HistoryInv(env, World(ExecCancel(env, w.ledger, ctx, call).value, w.slot, w.history + EventsOf(env, w.ledger, ctx, call)))
  {
    var l := w.ledger;
    CancelCloses(env, l, ctx, call);
    CancelPreserves(env, l, ctx, call);
    PendingFacts(env, w, call.request);
    CloseHistory(env, w, call.account, call.request,
                 (ReleasedAccount(AccountAt(l, call.account)).value, RequestAt(l, call.request).(status := Cancelled)),
                 Closed(call.request, ByOwner, ctx.slot));
  }

  lemma ExpireHistory(env: Crypto, w: World, ctx: Context, call: Call)
    requires WorldInv(env, w) && ctx.slot == w.slot && call.Expire? && ExecExpire(env, w.ledger, ctx, call).Ok?
    ensures HistoryInv(env, World(ExecExpire(env, w.ledger, ctx, call).value, w.slot, w.history + EventsOf(env, w.ledger, ctx, call)))
  {
    var l := w.ledger;
    ExpireCloses(env, l, ctx, call);
    ExpirePreserves(env, l, ctx, call);
    PendingFacts(env, w, call.request);
    CloseHistory(env, w, call.account, call.request,
                 (ReleasedAccount(AccountAt(l, call.account)).value, RequestAt(l, call.request).(status := Status.Expired)),
                 Closed(call.request, ByTimeout, ctx.slot));
  }

  /** A stored result is a proper closing when a signature of its binding by the operator of the request's epoch verifies. */
  lemma ResultClosedOk(env: Crypto, w: World, ak: Pubkey, q: Pubkey, pair: (ConfidentialAccount, Request), op: Pubkey, m: Bytes,
                       sig: Bytes64)
    requires WorldInv(env, w) && Closes(w.ledger, ak, q, pair) && ak != q && pair.1.status == Finalized
    requires var l, r := w.ledger, RequestAt(w.ledger, q);
             && IsConfig(l, r.config)
             && var c := ConfigAt(l, r.config);
             && op == c.operator && r.operatorEpoch == c.operatorEpoch && w.slot < r.expirySlot
             && m == EncodeResult(StoredBinding(c, pair.1, q))
    requires env.ed25519Verify(op.bytes, m, sig)
    ensures ClosedOk(env, Store(w.ledger, ak, q, pair), w.history, q, ByResult(op, m, sig), w.slot)
  {
    var ck := RequestAt(w.ledger, q).config;
    PendingFacts(env, w, q);
    assert ck != q && ck != ak;
    assert Explained(w.ledger, w.history, ck);
  }

  /** A closing that is proper by the history so far can be appended to it. */
  lemma CloseProperly(env: Crypto, w: World, ak: Pubkey, q: Pubkey, pair: (ConfidentialAccount, Request), e: Event)
    requires WorldInv(env, w) && Closes(w.ledger, ak, q, pair) && ak != q
    requires Evolves(w.ledger, Store(w.ledger, ak, q, pair))
    requires e.Closed? && e.request == q && e.slot == w.slot
    requires ClosedOk(env, Store(w.ledger, ak, q, pair), w.history, q, e.how, e.slot)
    ensures HistoryInv(env, World(Store(w.ledger, ak, q, pair), w.slot, w.history + [e]))
  {
    var l' := Store(w.ledger, ak, q, pair);
    assert Evolves(l', l');
    ClosedOkEvolves(env, l', l', w.history, w.history + [e], q, e.how, e.slot);
    CloseHistory(env, w, ak, q, pair, e);
  }

  /** What a successful finalize leaves is a proper closing, by the signature its transaction carries. */
  lemma FinalizeClosedOk(env: Crypto, w: World, ctx: Context, call: Call, pair: (ConfidentialAccount, Request), e: Event)
    requires WorldInv(env, w) && PrecompilesAccept(env, ctx.ixs)
    requires ctx.slot == w.slot && call.Finalize? && ExecFinalize(env, w.ledger, ctx, call).Ok?
    requires Closes(w.ledger, call.account, call.request, pair) && call.account != call.request
    requires IsConfig(w.ledger, call.config)
             && pair.1 == FinalizedRequest(env, ConfigAt(w.ledger, call.config), RequestAt(w.ledger, call.request), call.request, call.finalize)
    requires EventsOf(env, w.ledger, ctx, call) == [e]
    ensures e.Closed? && e.request == call.request && e.slot == w.slot
    ensures ClosedOk(env, Store(w.ledger, call.account, call.request, pair), w.history, e.request, e.how, e.slot)
  {
    var l, q := w.ledger, call.request;
    FinalizeCloses(env, l, ctx, call);
    var c := ConfigAt(l, call.config);
    var m := EncodeResult(ResultBindingOf(c, RequestAt(l, q), q, call.finalize));
    IntrospectionSound(env, ctx.ixs, ctx.current, c.operator, m);
    ResultClosedOk(env, w, call.account, q, pair, c.operator, m, SignatureIn(ctx.ixs, ctx.current));
  }

  lemma FinalizeHistory(env: Crypto, w: World, ctx: Context, call: Call)
    requires WorldInv(env, w) && PrecompilesAccept(env, ctx.ixs)
    requires ctx.slot == w.slot && call.Finalize? && ExecFinalize(env, w.ledger, ctx, call).Ok?
    ensures HistoryInv(env, World(ExecFinalize(env, w.ledger, ctx, call).value, w.slot, w.history + EventsOf(env, w.ledger, ctx, call)))
  {
    var l, ak, q := w.ledger, call.account, call.request;
    FinalizeCloses(env, l, ctx, call);
    FinalizePreserves(env, l, ctx, call);
    var pair := (ReleasedAccount(AccountAt(l, ak)).value,
                 FinalizedRequest(env, ConfigAt(l, call.config), RequestAt(l, q), q, call.finalize));
    var e := EventsOf(env, l, ctx, call)[0];
    FinalizeClosedOk(env, w, ctx, call, pair, e);
    CloseProperly(env, w, ak, q, pair, e);
  }

  /** Every call that succeeds inside an accepted transaction keeps the whole invariant. */
  lemma InvokeKeeps(env: Crypto, w: World, ixs: Instructions, inv: Invocation)
    requires WorldInv(env, w) && PrecompilesAccept(env, ixs) && Invoke(env, w, ixs, inv).Ok?
    ensures var w' := Invoke(env, w, ixs, inv).value;
            WorldInv(env, w') && Evolves(w.ledger, w'.ledger) && w.history <= w'.history && w'.slot == w.slot
  {
    var ctx := Context(w.slot, ixs, inv.top);
    var call := inv.call;
    ExecPreserves(env, w.ledger, ctx, call);
    match call
    case InitializeConfig(_, _, _, _) => InitializeHistory(env, w, ctx, call);
    case RotateOperator(_, _, _) => RotateHistory(env, w, ctx, call);
    case Submit(_, _, _, _, _) => SubmitHistory(env, w, ctx, call);
    case Cancel(_, _, _) => CancelHistory(env, w, ctx, call);
    case Expire(_, _) => ExpireHistory(env, w, ctx, call);
    case Finalize(_, _, _, _, _) => FinalizeHistory(env, w, ctx, call);
    case SetPaused(_, _, _) =>
      QuietHistory(env, w, ctx, call);
      assert w.history + [] == w.history;
    case SetKeyVersion(_, _, _) =>
      QuietHistory(env, w, ctx, call);
      assert w.history + [] == w.history;
    case CreateAccount(_, _, _, _, _) =>
      QuietHistory(env, w, ctx, call);
      assert w.history + [] == w.history;
  }

  /** One world later than another: records evolved, the history grew, the clock did not go back. */
  ghost predicate Later(w: World, w': World) {
    Evolves(w.ledger, w'.ledger) && w.history <= w'.history && w.slot <= w'.slot
  }

  lemma LaterTransitive(w: World, w': World, w'': World)
    requires Later(w, w') && Later(w', w'')
    ensures Later(w, w'')
  {
    EvolvesTransitive(w.ledger, w'.ledger, w''.ledger);
  }

  /** `w'` is in order and later than `w`. */
  ghost predicate Kept(env: Crypto, w: World, w': World) {
    WorldInv(env, w') && Later(w, w')
  }

  lemma KeptReflexive(env: Crypto, w: World)
    requires WorldInv(env, w)
    ensures Kept(env, w, w)
  {
  }

  lemma CallKept(env: Crypto, w: World, mid: World, ixs: Instructions, inv: Invocation)
    requires Kept(env, w, mid) && PrecompilesAccept(env, ixs) && Invoke(env, mid, ixs, inv).Ok?
    ensures Kept(env, w, Invoke(env, mid, ixs, inv).value)
  {
    InvokeKeeps(env, mid, ixs, inv);
    LaterTransitive(w, mid, Invoke(env, mid, ixs, inv).value);
  }

  /** What holds at the start and survives each successful call holds after any number of them. */
  lemma {:induction false} CallsKeep(step: (World, Invocation) -> Result<World, Error>, w: World, calls: seq<Invocation>, n: nat,
                                     holds: World -> bool)
    requires n <= |calls| && CallsBy(step, w, calls, n).Ok? && holds(w)
    requires forall mid, inv {:trigger step(mid, inv)} :: holds(mid) && step(mid, inv).Ok? ==> holds(step(mid, inv).value)
    ensures holds(CallsBy(step, w, calls, n).value)
  {
    if n > 0 {
      CallsKeep(step, w, calls, n - 1, holds);
    }
  }

  lemma {:induction false} CallsPrefix(step: (World, Invocation) -> Result<World, Error>, w: World, calls: seq<Invocation>, n: nat, m: nat)
    requires n <= m <= |calls| && CallsBy(step, w, calls, m).Ok?
    ensures CallsBy(step, w, calls, n).Ok?
    decreases m
  {
    if n < m {
      CallsPrefix(step, w, calls, n, m - 1);
    }
  }

  /** When a number of calls succeeds, so does every smaller number of them. */
  lemma PrefixSucceeds(env: Crypto, w: World, tx: Transaction, n: nat, m: nat)
    requires n <= m <= |tx.invocations| && InvokeUpTo(env, w, tx, m).Ok?
    ensures InvokeUpTo(env, w, tx, n).Ok?
  {
    CallsPrefix((mid, inv) => Invoke(env, mid, tx.ixs, inv), w, tx.invocations, n, m);
  }

  /** One more call runs on what the calls before it left. */
  lemma UpToNext(env: Crypto, w: World, tx: Transaction, n: nat)
    requires n < |tx.invocations| && InvokeUpTo(env, w, tx, n).Ok?
    ensures InvokeUpTo(env, w, tx, n + 1) == Invoke(env, InvokeUpTo(env, w, tx, n).value, tx.ixs, tx.invocations[n])
  {
  }

  /** A call sees the current slot, the whole transaction and its own top-level position, and moves no clock. */
  lemma InvokeSees(env: Crypto, w: World, ixs: Instructions, inv: Invocation)
    ensures var r, done := Invoke(env, w, ixs, inv), Exec(env, w.ledger, Context(w.slot, ixs, inv.top), inv.call);
            && (r.Ok? <==> done.Ok?)
            && (r.Ok? ==> r.value.ledger == done.value && r.value.slot == w.slot && w.history <= r.value.history)
            && (r.Err? ==> done == Err(r.error))
  {
  }

  // ---- Atomicity ----

  /** One failing call undoes the whole transaction: ledger, clock and history are those from before it. */
  lemma FailureUndoesAll(env: Crypto, w: World, tx: Transaction, n: nat)
    requires n < |tx.invocations| && InvokeUpTo(env, w, tx, n).Ok?
    requires Invoke(env, InvokeUpTo(env, w, tx, n).value, tx.ixs, tx.invocations[n]).Err?
    ensures Step(env, w, Send(tx)) == w && !Commits(env, w, tx)
  {
    UpToNext(env, w, tx, n);
    if InvokeUpTo(env, w, tx, |tx.invocations|).Ok? {
      PrefixSucceeds(env, w, tx, n + 1, |tx.invocations|);
    }
  }

  /** Call number `n` is reached and succeeds. */
  predicate CallSucceeds(env: Crypto, w: World, tx: Transaction, n: nat)
    requires n < |tx.invocations|
  {
    && InvokeUpTo(env, w, tx, n).Ok?
    && Invoke(env, InvokeUpTo(env, w, tx, n).value, tx.ixs, tx.invocations[n]).Ok?
  }

  lemma {:induction false} SuccessesAddUp(env: Crypto, w: World, tx: Transaction, n: nat)
    requires n <= |tx.invocations| && forall k: nat :: k < n ==> CallSucceeds(env, w, tx, k)
    ensures InvokeUpTo(env, w, tx, n).Ok?
  {
    if n > 0 {
      assert CallSucceeds(env, w, tx, n - 1);
      UpToNext(env, w, tx, n - 1);
    }
  }

  lemma CommittedSucceeds(env: Crypto, w: World, tx: Transaction, k: nat)
    requires Commits(env, w, tx) && k < |tx.invocations|
    ensures CallSucceeds(env, w, tx, k)
  {
    PrefixSucceeds(env, w, tx, k, |tx.invocations|);
    PrefixSucceeds(env, w, tx, k + 1, |tx.invocations|);
    UpToNext(env, w, tx, k);
  }

  /** A transaction commits iff its signatures verify and every call succeeds; otherwise it leaves no trace. */
  lemma TransactionAtomic(env: Crypto, w: World, tx: Transaction)
    ensures Commits(env, w, tx) <==>
              PrecompilesAccept(env, tx.ixs) && forall k: nat :: k < |tx.invocations| ==> CallSucceeds(env, w, tx, k)
    ensures Commits(env, w, tx) ==> Ok(Step(env, w, Send(tx))) == InvokeUpTo(env, w, tx, |tx.invocations|)
    ensures !Commits(env, w, tx) ==> Step(env, w, Send(tx)) == w
  {
    if Commits(env, w, tx) {
      forall k: nat | k < |tx.invocations|
        ensures CallSucceeds(env, w, tx, k)
      {
        CommittedSucceeds(env, w, tx, k);
      }
    }
    if forall k: nat :: k < |tx.invocations| ==> CallSucceeds(env, w, tx, k) {
      SuccessesAddUp(env, w, tx, |tx.invocations|);
    }
  }

  /** The clock takes exactly the later slots. */
  lemma ClockForward(env: Crypto, w: World, slot: u64)
    ensures Step(env, w, Advance(slot)) == World(w.ledger, if w.slot <= slot then slot else w.slot, w.history)
  {
  }

  /** Any prefix of an accepted transaction's calls keeps the invariant. */
  lemma InvokeUpToKeeps(env: Crypto, w: World, tx: Transaction, n: nat)
    requires WorldInv(env, w) && PrecompilesAccept(env, tx.ixs)
    requires n <= |tx.invocations| && InvokeUpTo(env, w, tx, n).Ok?
    ensures var w' := InvokeUpTo(env, w, tx, n).value; WorldInv(env, w') && Later(w, w')
  {
    KeptReflexive(env, w);
    forall mid, inv | Kept(env, w, mid) && Invoke(env, mid, tx.ixs, inv).Ok?
      ensures Kept(env, w, Invoke(env, mid, tx.ixs, inv).value)
    {
      CallKept(env, w, mid, tx.ixs, inv);
    }
    CallsKeep((mid, inv) => Invoke(env, mid, tx.ixs, inv), w, tx.invocations, n, w' => Kept(env, w, w'));
  }

  lemma StepKeeps(env: Crypto, w: World, action: Action)
    requires WorldInv(env, w)
    ensures WorldInv(env, Step(env, w, action)) && Later(w, Step(env, w, action))
  {
    match action
    case Advance(slot) =>
      var w' := Step(env, w, action);
      forall i: nat | i < |w'.history|
        ensures EntryOk(env, w', i)
      {
        assert EntryOk(env, w, i);
        EntriesEvolve(env, w, w', i);
      }
      forall k | k in w'.ledger
        ensures Explained(w'.ledger, w'.history, k)
      {
        assert Explained(w.ledger, w.history, k);
      }
    case Send(tx) =>
      if Commits(env, w, tx) {
        InvokeUpToKeeps(env, w, tx, |tx.invocations|);
      }
  }

  /** Whole runs: the invariant holds at the end, and the end is later than the start. */
  lemma {:induction false} RunKeeps(env: Crypto, w: World, actions: seq<Action>)
    requires WorldInv(env, w)
    ensures WorldInv(env, Run(env, w, actions)) && Later(w, Run(env, w, actions))
    decreases |actions|
  {
    if actions != [] {
      var mid := Step(env, w, actions[0]);
      StepKeeps(env, w, actions[0]);
      RunKeeps(env, mid, actions[1..]);
      LaterTransitive(w, mid, Run(env, w, actions));
    }
  }

  /** Every reachable world satisfies the invariant. */
  lemma ReachableInv(env: Crypto, w: World)
    requires Reachable(env, w)
    ensures WorldInv(env, w)
  {
    var slot: u64, actions :| Run(env, Genesis(slot), actions) == w;
    RunKeeps(env, Genesis(slot), actions);
  }

  lemma {:induction false} RunAppend(env: Crypto, w: World, first: seq<Action>, rest: seq<Action>)
    ensures Run(env, w, first + rest) == Run(env, Run(env, w, first), rest)
    decreases |first|
  {
    if first == [] {
      assert first + rest == rest;
    } else {
      assert (first + rest)[1..] == first[1..] + rest;
      RunAppend(env, Step(env, w, first[0]), first[1..], rest);
    }
  }

  /** Continuing a reachable world reaches another. */
  lemma ReachableContinues(env: Crypto, w: World, actions: seq<Action>)
    requires Reachable(env, w)
    ensures Reachable(env, Run(env, w, actions))
  {
    var slot: u64, first :| Run(env, Genesis(slot), first) == w;
    RunAppend(env, Genesis(slot), first, actions);
    assert Run(env, Genesis(slot), first + actions) == Run(env, w, actions);
  }
}
