/** Request steps on different accounts do not disturb each other. */
module Independence {
  import opened Types
  import opened State
  import opened Coordinator
  import opened Invariant

  predicate IsRequestStep(call: Call) {
    call.Submit? || call.Cancel? || call.Expire? || call.Finalize?
  }

  /** What a request step can observe of the ledger: three loads and whether its request address is taken. */
  ghost predicate SameView(l: Ledger, m: Ledger, call: Call)
    requires IsRequestStep(call)
  {
    && LoadAccount(l, call.account) == LoadAccount(m, call.account)
    && LoadRequest(l, call.request) == LoadRequest(m, call.request)
    && (call.request in l <==> call.request in m)
    && ((call.Submit? || call.Finalize?) ==> LoadConfig(l, call.config) == LoadConfig(m, call.config))
  }

  /** What a successful request step writes. */
  ghost function Written(env: Crypto, l: Ledger, ctx: Context, call: Call): (ConfidentialAccount, Request)
    requires IsRequestStep(call) && Exec(env, l, ctx, call).Ok?
  {
    var l' := Exec(env, l, ctx, call).value;
    (l'[call.account].account, l'[call.request].request)
  }

  /** A successful request step rewrites an account and writes a request at a free address or over a request of that account. */
  lemma StepShape(env: Crypto, l: Ledger, ctx: Context, call: Call)
    requires IsRequestStep(call) && Exec(env, l, ctx, call).Ok?
    ensures Exec(env, l, ctx, call).value == Store(l, call.account, call.request, Written(env, l, ctx, call))
    ensures IsAccount(l, call.account)
    ensures call.request in l ==> IsRequest(l, call.request) && RequestAt(l, call.request).confidentialAccount == call.account
  {
    match call
    case Submit(_, _, _, _, _) => SubmitOpens(env, l, ctx, call);
    case Cancel(_, _, _) => CancelCloses(env, l, ctx, call);
    case Expire(_, _) => ExpireCloses(env, l, ctx, call);
    case Finalize(_, _, _, _, _) => FinalizeCloses(env, l, ctx, call);
  }

  /** Equal views give equal outcomes and equal writes. */
  lemma ViewDecides(env: Crypto, l: Ledger, m: Ledger, ctx: Context, call: Call)
    requires IsRequestStep(call) && SameView(l, m, call)
    ensures Exec(env, l, ctx, call).Ok? <==> Exec(env, m, ctx, call).Ok?
    ensures Exec(env, l, ctx, call).Err? ==> Exec(env, m, ctx, call) == Err(Exec(env, l, ctx, call).error)
    ensures Exec(env, l, ctx, call).Ok? ==> Written(env, l, ctx, call) == Written(env, m, ctx, call)
  {
    match call
    case Submit(_, _, _, _, _) => assert SubmitConstraints(env, l, call) == SubmitConstraints(env, m, call);
    case Cancel(_, _, _) => assert CancelConstraints(env, l, call) == CancelConstraints(env, m, call);
    case Expire(_, _) => assert ExpireConstraints(env, l, call) == ExpireConstraints(env, m, call);
    case Finalize(_, _, _, _, _) => assert FinalizeConstraints(env, l, call) == FinalizeConstraints(env, m, call);
  }

  /** Another account's request step leaves the view of this one unchanged. */
  lemma ViewUndisturbed(env: Crypto, l: Ledger, ctx: Context, first: Call, second: Call)
    requires IsRequestStep(first) && IsRequestStep(second) && Exec(env, l, ctx, first).Ok?
    requires first.account != second.account && first.request != second.request
    ensures SameView(l, Exec(env, l, ctx, first).value, second)
  {
    StepShape(env, l, ctx, first);
  }

  /** Running `second` after a successful `first` gives the same outcome as running it alone. */
  lemma SameOutcome(env: Crypto, l: Ledger, ctx1: Context, first: Call, ctx2: Context, second: Call)
    requires IsRequestStep(first) && IsRequestStep(second) && Exec(env, l, ctx1, first).Ok?
    requires first.account != second.account && first.request != second.request
    ensures var l1 := Exec(env, l, ctx1, first).value;
            && (Exec(env, l1, ctx2, second).Ok? <==> Exec(env, l, ctx2, second).Ok?)
            && (Exec(env, l, ctx2, second).Err? ==> Exec(env, l1, ctx2, second) == Err(Exec(env, l, ctx2, second).error))
            && (Exec(env, l, ctx2, second).Ok? ==>
                  Exec(env, l1, ctx2, second).value
                  == Store(Store(l, first.account, first.request, Written(env, l, ctx1, first)),
                           second.account, second.request, Written(env, l, ctx2, second)))
  {
    var l1 := Exec(env, l, ctx1, first).value;
    ViewUndisturbed(env, l, ctx1, first, second);
    ViewDecides(env, l, l1, ctx2, second);
    StepShape(env, l, ctx1, first);
    if Exec(env, l, ctx2, second).Ok? {
      StepShape(env, l1, ctx2, second);
    }
  }

  lemma StoresCommute(l: Ledger, a1: Pubkey, q1: Pubkey, p1: (ConfidentialAccount, Request),
                      a2: Pubkey, q2: Pubkey, p2: (ConfidentialAccount, Request))
    requires a1 != a2 && q1 != q2 && a1 != q2 && a2 != q1
    ensures Store(Store(l, a1, q1, p1), a2, q2, p2) == Store(Store(l, a2, q2, p2), a1, q1, p1)
  {
  }

  /**
   * Two request steps on different accounts with different request addresses commute: each has the
   * same outcome, error included, before and after the other, and both orders end in the same ledger.
   */
  lemma StepsCommute(env: Crypto, l: Ledger, ctx1: Context, first: Call, ctx2: Context, second: Call)
    requires IsRequestStep(first) && IsRequestStep(second)
    requires first.account != second.account && first.request != second.request
    ensures var r1, r2 := Exec(env, l, ctx1, first), Exec(env, l, ctx2, second);
            && (r1.Ok? ==> (r2.Err? ==> Exec(env, r1.value, ctx2, second) == Err(r2.error))
                           && (r2.Ok? ==> Exec(env, r1.value, ctx2, second).Ok?))
            && (r2.Ok? ==> (r1.Err? ==> Exec(env, r2.value, ctx1, first) == Err(r1.error))
                           && (r1.Ok? ==> Exec(env, r2.value, ctx1, first).Ok?))
            && (r1.Ok? && r2.Ok? ==> Exec(env, r1.value, ctx2, second) == Exec(env, r2.value, ctx1, first))
  {
    var r1, r2 := Exec(env, l, ctx1, first), Exec(env, l, ctx2, second);
    if r1.Ok? {
      SameOutcome(env, l, ctx1, first, ctx2, second);
    }
    if r2.Ok? {
      SameOutcome(env, l, ctx2, second, ctx1, first);
    }
    if r1.Ok? && r2.Ok? {
      StepShape(env, l, ctx1, first);
      StepShape(env, l, ctx2, second);
      StoresCommute(l, first.account, first.request, Written(env, l, ctx1, first),
                    second.account, second.request, Written(env, l, ctx2, second));
    }
  }

  /** A request step leaves every other account, and every request of every other account, as it was. */
  lemma OthersUntouched(env: Crypto, l: Ledger, ctx: Context, call: Call, k: Pubkey)
    requires LedgerInv(env, l) && IsRequestStep(call) && Exec(env, l, ctx, call).Ok? && k in l
    requires match l[k]
             case ConfigRecord(_) => true
             case AccountRecord(_) => k != call.account
             case RequestRecord(r) => r.confidentialAccount != call.account
    ensures var l' := Exec(env, l, ctx, call).value; k in l' && l'[k] == l[k]
  {
    StepShape(env, l, ctx, call);
  }
}
