/** How much money there is, and why no transfer can overflow NUMERIC(15,2). */
module Supply {
  import opened Tables
  import opened Ledger
  import opened SetSums
  import opened Atomic
  import opened Interleaving
  import opened Invariant
  import opened Reachability

  // --- entries by wallet -------------------------------------------------------

  function EntrySum(es: seq<Entry>): WalletId -> int {
    (w: WalletId) => Sum(es, OfWallet(w))
  }

  /** Partitioning the entries by wallet loses none of them. */
  lemma {:induction false} WalletsPartition(es: seq<Entry>, ids: set<WalletId>)
    requires forall k :: 0 <= k < |es| ==> es[k].wallet in ids
    ensures Total(ids, EntrySum(es)) == Sum(es, All)
  {
    if es == [] {
      TotalZero(ids, EntrySum(es));
    } else {
      var n := |es| - 1;
      var e := es[n];
      WalletsPartition(es[..n], ids);
      TotalPick(ids, EntrySum(es), e.wallet);
      TotalPick(ids, EntrySum(es[..n]), e.wallet);
      TotalSame(ids - {e.wallet}, EntrySum(es), EntrySum(es[..n]));
    }
  }

  // --- the supply --------------------------------------------------------------

  function BalanceIn(wallets: map<WalletId, Wallet>): WalletId -> int {
    w => if w in wallets then wallets[w].balance else 0
  }

  function Users(st: Store): set<WalletId> {
    set w <- st.wallets | st.wallets[w].kind == User
  }

  function GrantTotal(txns: seq<Txn>): int {
    if txns == [] then 0
    else GrantTotal(txns[..|txns| - 1]) + (if txns[|txns| - 1].kind == SignupGrant then txns[|txns| - 1].amount else 0)
  }

  function GrantCount(txns: seq<Txn>): nat {
    if txns == [] then 0
    else GrantCount(txns[..|txns| - 1]) + (if txns[|txns| - 1].kind == SignupGrant then 1 else 0)
  }

  predicate MintOnlyGrants(txns: seq<Txn>) {
    forall k :: 0 <= k < |txns| ==> (txns[k].kind == SignupGrant <==> txns[k].src == MINT) && txns[k].dst != MINT
  }

  lemma {:induction false} MintGaveGrants(es: seq<Entry>, txns: seq<Txn>)
    requires Journal(es, txns) && MintOnlyGrants(txns)
    ensures Sum(es, OfWallet(MINT)) == -GrantTotal(txns)
  {
    if txns != [] {
      var n := |es|;
      MintGaveGrants(es[..n - 2], txns[..|txns| - 1]);
      assert es == es[..n - 2] + [es[n - 2], es[n - 1]];
      SumAppend2(es[..n - 2], es[n - 2], es[n - 1], OfWallet(MINT));
    }
  }

  /** What users hold together is what the mint gave out, and that is the sum of the signup grants. */
  lemma SupplyIsGrants(st: Store)
    requires LedgerInv(st)
    ensures Total(Users(st), BalanceIn(st.wallets)) == -st.wallets[MINT].balance == GrantTotal(st.txns)
  {
    var all := st.wallets.Keys;
    WalletsPartition(st.entries, all);
    JournalBalances(st.entries, st.txns, All);
    TotalSame(all, BalanceIn(st.wallets), EntrySum(st.entries));
    TotalPick(all, BalanceIn(st.wallets), MINT);
    assert all - {MINT} == Users(st);
    forall k | 0 <= k < |st.txns|
      ensures (st.txns[k].kind == SignupGrant <==> st.txns[k].src == MINT) && st.txns[k].dst != MINT
    {
      assert TxnOk(st, st.txns[k]);
    }
    MintGaveGrants(st.entries, st.txns);
  }

  /** Any two users together hold no more than the supply. */
  lemma PairWithinSupply(st: Store, u: WalletId, v: WalletId)
    requires LedgerInv(st) && u in Users(st) && v in Users(st) && u != v
    ensures st.wallets[u].balance + st.wallets[v].balance <= -st.wallets[MINT].balance <= MAX_NUMERIC
  {
    var f, ids := BalanceIn(st.wallets), Users(st);
    SupplyIsGrants(st);
    TotalPick(ids, f, u);
    TotalPick(ids - {u}, f, v);
    TotalAtLeast(ids - {u} - {v}, f);
  }

  /** A covered transfer between users never leaves the range of the column. */
  lemma TransferFits(st: Store, p: Plan)
    requires LedgerInv(st) && PlanOk(st, p) && p.kind != SignupGrant
    requires 0 < p.amount <= st.wallets[p.src].balance
    ensures p.amount <= MAX_NUMERIC
    ensures 0 <= st.wallets[p.src].balance - p.amount && FitsNumeric(st.wallets[p.src].balance - p.amount)
    ensures 0 <= st.wallets[p.dst].balance + p.amount && FitsNumeric(st.wallets[p.dst].balance + p.amount)
  {
    PairWithinSupply(st, p.src, p.dst);
  }

  // --- what can refuse a transfer ------------------------------------------------

  /** On a sound ledger a transfer between two users is refused only for a conflicting key, a bad amount
      or lack of funds, or by the index, which can only happen for an empty key. */
  lemma MoveAnswers(st: Store, o: Order, x: Fresh)
    requires LedgerInv(st) && o.kind != SignupGrant && Known(st, o) && o.initiator != o.to
    ensures Move(st, o, x) ==
            match FindReplay(st.txns, o.initiator, o.key)
            case Some(t) => if SameRequest(t, o.amount, st.walletOf[o.to]) then Replay(t.id) else Refused(KeyConflict)
            case None =>
              if o.amount <= 0 then Refused(BadAmount)
              else if st.wallets[st.walletOf[o.initiator]].balance < o.amount then Refused(InsufficientFunds)
              else if IndexHit(st.txns, o.initiator, o.key) then Refused(IntegrityFailure)
              else Moved(Post(st, PlanOf(st, o), x))
    ensures IndexHit(st.txns, o.initiator, o.key) && FindReplay(st.txns, o.initiator, o.key).None? ==> o.key == Some("")
  {
    var p := PlanOf(st, o);
    assert p.src in st.wallets && p.dst in st.wallets && p.src != p.dst;
    if 0 < p.amount <= st.wallets[p.src].balance {
      TransferFits(st, p);
    }
  }

  /** The payment of a request can still be made: no other transaction has taken its key, and either it
      has been made already or the payer's balance covers it. */
  predicate Payable(st: Store, id: RequestId)
    requires id in st.requests && RequestOk(st, id) && OwnersOk(st)
  {
    var q := st.requests[id];
    match FindReplay(st.txns, q.payer, Some(RequestKey(id)))
    case Some(t) => SameRequest(t, q.amount, st.walletOf[q.requester])
    case None => q.amount <= st.wallets[st.walletOf[q.payer]].balance
  }

  /** Exactly when an approval pays, and every way in which it can fail. */
  lemma ApproveAnswers(st: Store, payer: UserId, id: RequestId, x: Inputs)
    requires StoreInv(st)
    ensures RunApprove(st, payer, id, x).1.Settled? <==>
            && id in st.requests && st.requests[id].payer == payer && st.requests[id].status == Pending
            && x.now < st.requests[id].expires && x.pinOk && x.active && Payable(st, id)
    ensures RunApprove(st, payer, id, x).1.Settled? ||
            (RunApprove(st, payer, id, x).1.Failed? &&
             RunApprove(st, payer, id, x).1.error in {RequestNotFound, RequestExpired, RequestNotPending, InvalidPin,
                                                      RecipientNotFound, KeyConflict, InsufficientFunds})
  {
    if id in st.requests {
      SettlementAnswers(st, id, x.ids);
      assert OwnersOk(st);
    }
    ApprovalCases(st, payer, id, x);
  }

  lemma ApprovalCases(st: Store, payer: UserId, id: RequestId, x: Inputs)
    requires id in st.requests ==> RequestOk(st, id) && OwnersOk(st)
    requires id in st.requests ==>
               var m := Move(st, SettlementOrder(id, st.requests[id]), x.ids);
               (Payable(st, id) <==> !m.Refused?) && (m.Refused? ==> m.error in {KeyConflict, InsufficientFunds})
    ensures RunApprove(st, payer, id, x).1.Settled? <==>
            && id in st.requests && st.requests[id].payer == payer && st.requests[id].status == Pending
            && x.now < st.requests[id].expires && x.pinOk && x.active && Payable(st, id)
    ensures RunApprove(st, payer, id, x).1.Settled? ||
            (RunApprove(st, payer, id, x).1.Failed? &&
             RunApprove(st, payer, id, x).1.error in {RequestNotFound, RequestExpired, RequestNotPending, InvalidPin,
                                                      RecipientNotFound, KeyConflict, InsufficientFunds})
  {
  }

  lemma SettlementAnswers(st: Store, id: RequestId, x: Fresh)
    requires StoreInv(st) && id in st.requests
    ensures RequestOk(st, id)
    ensures var m := Move(st, SettlementOrder(id, st.requests[id]), x);
            && (Payable(st, id) <==> !m.Refused?)
            && (m.Refused? ==> m.error in {KeyConflict, InsufficientFunds})
  {
    assert RequestOk(st, id);
    MoveAnswers(st, SettlementOrder(id, st.requests[id]), x);
  }

  // --- registrations -----------------------------------------------------------

  /** All signup grants are of one amount. */
  predicate TxnsGrant(txns: seq<Txn>, grant: int) {
    forall k :: 0 <= k < |txns| && txns[k].kind == SignupGrant ==> txns[k].amount == grant
  }

  lemma {:induction false} EqualGrants(txns: seq<Txn>, grant: int)
    requires TxnsGrant(txns, grant)
    ensures GrantTotal(txns) == grant * GrantCount(txns)
  {
    if txns != [] {
      EqualGrants(txns[..|txns| - 1], grant);
    }
  }

  const DEFAULT_GRANT: int := 10_000_000   // 100000.00 taka

  /** With one fixed grant, users hold grant times the number of registrations; at the default grant at
      most 99,999,999 registrations fit into the mint's balance. */
  lemma RegistrationBound(st: Store, grant: int)
    requires LedgerInv(st)
    requires TxnsGrant(st.txns, grant)
    ensures Total(Users(st), BalanceIn(st.wallets)) == grant * GrantCount(st.txns) <= MAX_NUMERIC
    ensures grant == DEFAULT_GRANT ==> GrantCount(st.txns) <= 99_999_999
  {
    SupplyIsGrants(st);
    EqualGrants(st.txns, grant);
  }

  /** A registration overflows exactly when the mint cannot hold the further debit. */
  lemma RegistrationOverflows(st: Store, a: Account, grant: int, x: Inputs)
    requires LedgerInv(st) && FreshCall(st, Register(a, grant)) && a.phone !in st.phones && 0 < grant
    ensures RunRegister(st, a, grant, x).1 ==
            if GrantTotal(st.txns) + grant <= MAX_NUMERIC then Registered(x.ids.txn) else Failed(NumericOverflow)
  {
    SupplyIsGrants(st);
    TotalAtLeast(Users(st), BalanceIn(st.wallets));
  }

  // --- the signup grant is one setting ------------------------------------------

  /** Every registration of the schedule is made with the configured grant. */
  predicate OneGrant(es: seq<Event>, grant: int) {
    forall k :: 0 <= k < |es| && es[k].Begin? && es[k].call.Register? ==> es[k].call.grant == grant
  }

  predicate CallsGrant(actors: seq<Actor>, grant: int) {
    forall i :: 0 <= i < |actors| && actors[i].call.Register? ==> actors[i].call.grant == grant
  }

  lemma EventCalls(s: State, e: Event, grant: int)
    requires Legal(s, e) && CallsGrant(s.actors, grant)
    requires e.Begin? && e.call.Register? ==> e.call.grant == grant
    ensures CallsGrant(Do(s, e, true).actors, grant)
  {
    if e.Act? {
      LocalKeepsCall(s.store, s.clock, s.nextEntry, s.actors[e.actor], e.pinOk, e.active);
    }
  }

  lemma CommittedGrant(st: Store, n: EntryId, a: Actor)
    requires ActorOk(st, n, a) && a.pc == Commit
    ensures var t := a.staged.txn;
            t.Some? && t.value.kind == SignupGrant ==> a.call.Register? && t.value.amount == a.call.grant
  {
  }

  lemma EventTxns(s: State, e: Event, grant: int)
    requires ActorsOk(s) && Legal(s, e) && CallsGrant(s.actors, grant) && TxnsGrant(s.store.txns, grant)
    ensures TxnsGrant(Do(s, e, true).store.txns, grant)
  {
    if e.Act? && s.actors[e.actor].pc == Commit {
      assert ActorOk(s.store, s.nextEntry, s.actors[e.actor]);
      CommittedGrant(s.store, s.nextEntry, s.actors[e.actor]);
    }
  }

  lemma {:induction false} AlwaysGrants(es: seq<Event>, grant: int)
    requires Exec(es, true).Some? && OneGrant(es, grant)
    ensures CallsGrant(Exec(es, true).value.actors, grant) && TxnsGrant(Exec(es, true).value.store.txns, grant)
  {
    if es != [] {
      var s, e := Exec(es[..|es| - 1], true).value, es[|es| - 1];
      AlwaysGrants(es[..|es| - 1], grant);
      ReachableInv(es[..|es| - 1]);
      EventCalls(s, e, grant);
      EventTxns(s, e, grant);
    }
  }

  /** In every reachable state users hold together exactly grant times the number of signup grants, which
      is what the mint is short of; at the default grant at most 99,999,999 registrations fit. */
  lemma AlwaysSupplied(es: seq<Event>, grant: int)
    requires Exec(es, true).Some? && OneGrant(es, grant)
    ensures var st := Exec(es, true).value.store;
            && MINT in st.wallets
            && Total(Users(st), BalanceIn(st.wallets)) == -st.wallets[MINT].balance
            && -st.wallets[MINT].balance == grant * GrantCount(st.txns) <= MAX_NUMERIC
            && (grant == DEFAULT_GRANT ==> GrantCount(st.txns) <= 99_999_999)
  {
    ReachableInv(es);
    AlwaysGrants(es, grant);
    var st := Exec(es, true).value.store;
    RegistrationBound(st, grant);
    SupplyIsGrants(st);
  }

  // --- over every schedule -----------------------------------------------------

  lemma PassedCheck(st: Store, n: EntryId, a: Actor)
    requires LedgerInv(st) && ActorOk(st, n, a) && !a.call.Register? && a.pc in {Insert, Update}
    ensures PlanOk(st, a.plan) && a.plan.kind != SignupGrant && 0 < a.plan.amount <= st.wallets[a.plan.src].balance
    ensures Cached(a, a.plan.src) == st.wallets[a.plan.src].balance
    ensures Cached(a, a.plan.dst) == st.wallets[a.plan.dst].balance
  {
    assert Base(st, a) == st;
  }

  /** Once the balance check has passed under the locks, a transfer cannot fail any more: it is either
      written or turned into a replay by the index. The column type and the no_overdraft constraint
      never refuse it. */
  lemma CheckedTransferGoesThrough(s: State, i: nat)
    requires LedgerInv(s.store) && ActorsOk(s) && i < |s.actors|
    requires !s.actors[i].call.Register? && s.actors[i].pc in {Insert, Update}
    ensures var a := s.actors[i];
            if a.pc == Insert then InsertStep(s.store.txns, a).pc in {Update, Winner} else UpdateStep(a).pc == Debit
  {
    assert ActorOk(s.store, s.nextEntry, s.actors[i]);
    PassedCheck(s.store, s.nextEntry, s.actors[i]);
    TransferFits(s.store, s.actors[i].plan);
  }

  /** The calls that move money between users. */
  predicate MovesMoney(c: Call) {
    c.Send? || c.Approve?
  }

  predicate Overflowed(pc: Pc) {
    pc == Unwind(NumericOverflow) || pc == Done(Failed(NumericOverflow))
  }

  lemma OverflowOnlyAtWrites(st: Store, clock: int, n: EntryId, a: Actor, pinOk: bool, active: bool)
    requires OnScript(a) && MovesMoney(a.call) && !Overflowed(a.pc) && a.pc != Insert && a.pc != Update
    ensures !Overflowed(Local(st, clock, n, a, pinOk, active, true).pc)
  {
  }

  predicate NoTransferOverflowed(s: State) {
    forall i :: 0 <= i < |s.actors| && MovesMoney(s.actors[i].call) ==> !Overflowed(s.actors[i].pc)
  }

  lemma StepNoOverflow(s: State, i: nat, pinOk: bool, active: bool)
    requires Inv(s) && i < |s.actors| && OnScript(s.actors[i])
    requires MovesMoney(s.actors[i].call) && !Overflowed(s.actors[i].pc)
    ensures !Overflowed(Local(s.store, s.clock, s.nextEntry, s.actors[i], pinOk, active, true).pc)
  {
    if s.actors[i].pc == Insert || s.actors[i].pc == Update {
      CheckedTransferGoesThrough(s, i);
    } else {
      OverflowOnlyAtWrites(s.store, s.clock, s.nextEntry, s.actors[i], pinOk, active);
    }
  }

  lemma LocalKeepsCall(st: Store, clock: int, n: EntryId, a: Actor, pinOk: bool, active: bool)
    requires OnScript(a)
    ensures Local(st, clock, n, a, pinOk, active, true).call == a.call
  {
  }

  lemma OwnEventOverflowFree(s: State, e: Event, i: nat)
    requires Inv(s) && Legal(s, e) && Concerns(e, i)
    requires MovesMoney(s.actors[i].call) && !Overflowed(s.actors[i].pc)
    ensures !Overflowed(Do(s, e, true).actors[i].pc)
  {
    if e.Act? {
      StepNoOverflow(s, i, e.pinOk, e.active);
    }
  }

  lemma OwnEventKeepsCall(s: State, e: Event, i: nat)
    requires Legal(s, e) && Concerns(e, i)
    ensures Do(s, e, true).actors[i].call == s.actors[i].call
  {
    if e.Act? {
      LocalKeepsCall(s.store, s.clock, s.nextEntry, s.actors[i], e.pinOk, e.active);
    }
  }

  lemma EventNoOverflow(s: State, e: Event)
    requires Inv(s) && Legal(s, e) && NoTransferOverflowed(s)
    ensures NoTransferOverflowed(Do(s, e, true))
  {
    var s' := Do(s, e, true);
    forall i | 0 <= i < |s'.actors| && MovesMoney(s'.actors[i].call) ensures !Overflowed(s'.actors[i].pc) {
      if Concerns(e, i) {
        OwnEventKeepsCall(s, e, i);
        OwnEventOverflowFree(s, e, i);
      } else if i < |s.actors| {
        assert s'.actors[i] == s.actors[i];
      }
    }
  }

  /** No transfer or approval ever fails for numeric overflow, in any interleaving. */
  lemma {:induction false} NeverOverflows(es: seq<Event>)
    requires Exec(es, true).Some?
    ensures NoTransferOverflowed(Exec(es, true).value)
  {
    if es != [] {
      NeverOverflows(es[..|es| - 1]);
      ReachableInv(es[..|es| - 1]);
      EventNoOverflow(Exec(es[..|es| - 1], true).value, es[|es| - 1]);
    }
  }
}
