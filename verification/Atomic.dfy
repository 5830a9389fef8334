/** Every money and request operation of the services as one indivisible function of the
    committed state: the reference that both the imperative services and the interleaved
    transactions are proved against. */
module Atomic {
  import opened Tables
  import opened Ledger

  datatype Error =
    | WalletMissing | SelfTransfer | KeyConflict | BadAmount | InsufficientFunds | IntegrityFailure
    | NumericOverflow | PhoneTaken | InvalidPin | RecipientNotFound | SelfRequest
    | RequestNotFound | RequestExpired | RequestNotPending
    | Disconnected   // cut off; only a transaction in flight can meet this

  datatype Outcome =
    | Registered(txn: TxnId)
    | Sent(txn: TxnId)
    | Replayed(txn: TxnId)
    | Asked
    | Settled(txn: TxnId)
    | Turned(status: RequestStatus)
    | Failed(error: Error)

  datatype Call =
    | Register(account: Account, grant: int)
    | Send(sender: UserId, to: UserId, amount: int, key: Option<Key>)
    | Ask(id: RequestId, requester: UserId, payer: UserId, amount: int)
    | Approve(payer: UserId, id: RequestId)
    | Decline(payer: UserId, id: RequestId)
    | Cancel(requester: UserId, id: RequestId)

  /** What a call learns from outside the tables: the clock, the PIN comparison, whether the
      other party's account is active, and the fresh ids the database hands out. */
  datatype Inputs = Inputs(now: int, pinOk: bool, active: bool, ids: Fresh)

  // 72 hours in microseconds.
  const REQUEST_LIFETIME: int := 72 * 3600 * 1_000_000

  // --- moving money --------------------------------------------------------

  datatype MoveResult = Moved(store: Store) | Replay(txn: TxnId) | Refused(error: Error)

  /** Who moves how much to whom, under which idempotency key. */
  datatype Order = Order(initiator: UserId, to: UserId, amount: int, key: Option<Key>, kind: TxnKind)

  function SendOrder(c: Call): Order
    requires c.Send?
  {
    Order(c.sender, c.to, c.amount, c.key, Transfer)
  }

  function SettlementOrder(id: RequestId, q: Request): Order {
    Order(q.payer, q.requester, q.amount, Some(RequestKey(id)), RequestSettlement)
  }

  predicate Known(st: Store, o: Order) {
    o.initiator in st.walletOf && o.to in st.walletOf
  }

  function PlanOf(st: Store, o: Order): Plan
    requires Known(st, o)
  {
    Plan(o.kind, st.walletOf[o.initiator], st.walletOf[o.to], o.amount, o.initiator, o.key)
  }

  predicate SameRequest(t: Txn, amount: int, dst: WalletId) {
    t.amount == amount && t.dst == dst
  }

  /** Locking, checking and writing one planned event; `overdraft` is the mint's privilege. */
  function PostChecked(st: Store, p: Plan, overdraft: bool, x: Fresh): MoveResult {
    if p.src !in st.wallets || p.dst !in st.wallets then Refused(WalletMissing)
    else if p.amount <= 0 then Refused(BadAmount)
    else if !overdraft && st.wallets[p.src].balance < p.amount then Refused(InsufficientFunds)
    else if !FitsNumeric(p.amount) then Refused(NumericOverflow)
    else if p.src == p.dst || IndexHit(st.txns, p.initiator, p.key) then Refused(IntegrityFailure)
    else if
      !FitsNumeric(st.wallets[p.src].balance - p.amount) || !FitsNumeric(st.wallets[p.dst].balance + p.amount)
    then Refused(NumericOverflow)
    else if st.wallets[p.src].kind == User && st.wallets[p.src].balance < p.amount then Refused(IntegrityFailure)
    else Moved(Post(st, p, x))
  }

  function Move(st: Store, o: Order, x: Fresh): MoveResult {
    if !Known(st, o) then Refused(WalletMissing)
    else if o.initiator == o.to then Refused(SelfTransfer)
    else
      match FindReplay(st.txns, o.initiator, o.key)
      case Some(t) =>
        if SameRequest(t, o.amount, st.walletOf[o.to]) then Replay(t.id) else Refused(KeyConflict)
      case None => PostChecked(st, PlanOf(st, o), false, x)
  }

  // --- money requests ------------------------------------------------------

  /** A pending request past its expiry reads as expired. */
  function EffectiveStatus(q: Request, now: int): RequestStatus {
    if q.status == Pending && q.expires <= now then Expired else q.status
  }

  /** The refusals made on the locked request row, in order: role, expiry, status. */
  function Verdict(q: Request, actor: UserId, mustPay: bool, now: int): Option<Error> {
    if actor != (if mustPay then q.payer else q.requester) then Some(RequestNotFound)
    else if EffectiveStatus(q, now) == Expired then Some(RequestExpired)
    else if EffectiveStatus(q, now) != Pending then Some(RequestNotPending)
    else None
  }

  function Actionable(st: Store, id: RequestId, actor: UserId, mustPay: bool, now: int): Option<Error> {
    if id !in st.requests then Some(RequestNotFound) else Verdict(st.requests[id], actor, mustPay, now)
  }

  function Resolve(st: Store, id: RequestId, status: RequestStatus, link: Option<TxnId>): Store
    requires id in st.requests
  {
    st.(requests := st.requests[id := st.requests[id].(status := status, link := link)])
  }

  function AskRow(c: Call, now: int): Request
    requires c.Ask?
  {
    Request(c.requester, c.payer, c.amount, Pending, None, now + REQUEST_LIFETIME)
  }

  // --- the six operations --------------------------------------------------

  function GrantPlan(a: Account, grant: int): Plan {
    Plan(SignupGrant, MINT, a.wallet, grant, a.user, None)
  }

  function RunRegister(st: Store, a: Account, grant: int, x: Inputs): (Store, Outcome) {
    if a.phone in st.phones then (st, Failed(PhoneTaken))
    else
      match PostChecked(AddAccount(st, a), GrantPlan(a, grant), true, x.ids)
      case Moved(st') => (st', Registered(x.ids.txn))
      case Replay(_) => (st, Failed(IntegrityFailure))
      case Refused(e) => (st, Failed(e))
  }

  function RunSend(st: Store, c: Call, x: Inputs): (Store, Outcome)
    requires c.Send?
  {
    if !x.active then (st, Failed(RecipientNotFound))
    else if c.sender == c.to then (st, Failed(SelfTransfer))
    else if !x.pinOk then (st, Failed(InvalidPin))
    else
      match Move(st, SendOrder(c), x.ids)
      case Moved(st') => (st', Sent(x.ids.txn))
      case Replay(t) => (st, Replayed(t))
      case Refused(e) => (st, Failed(e))
  }

  function RunAsk(st: Store, c: Call, x: Inputs): (Store, Outcome)
    requires c.Ask?
  {
    if c.payer !in st.walletOf || !x.active then (st, Failed(RecipientNotFound))
    else if c.payer == c.requester then (st, Failed(SelfRequest))
    else if !FitsNumeric(c.amount) then (st, Failed(NumericOverflow))
    else if c.requester !in st.walletOf || c.amount <= 0 || c.id in st.requests then (st, Failed(IntegrityFailure))
    else
      (st.(requests := st.requests[c.id := AskRow(c, x.now)]), Asked)
  }

  function RunApprove(st: Store, payer: UserId, id: RequestId, x: Inputs): (Store, Outcome) {
    match Actionable(st, id, payer, true, x.now)
    case Some(e) => (st, Failed(e))
    case None =>
      var q := st.requests[id];
      if !x.pinOk then (st, Failed(InvalidPin))
      else if !x.active then (st, Failed(RecipientNotFound))
      else
        match Move(st, SettlementOrder(id, q), x.ids)
        case Moved(st') => (Resolve(st', id, Approved, Some(x.ids.txn)), Settled(x.ids.txn))
        case Replay(t) => (Resolve(st, id, Approved, Some(t)), Settled(t))
        case Refused(e) => (st, Failed(e))
  }

  function RunTurn(st: Store, actor: UserId, id: RequestId, mustPay: bool, x: Inputs): (Store, Outcome) {
    var status := if mustPay then Declined else Cancelled;
    match Actionable(st, id, actor, mustPay, x.now)
    case Some(e) => (st, Failed(e))
    case None => (Resolve(st, id, status, st.requests[id].link), Turned(status))
  }

  function Run(st: Store, c: Call, x: Inputs): (Store, Outcome) {
    match c
    case Register(a, grant) => RunRegister(st, a, grant, x)
    case Send(_, _, _, _) => RunSend(st, c, x)
    case Ask(_, _, _, _) => RunAsk(st, c, x)
    case Approve(payer, id) => RunApprove(st, payer, id, x)
    case Decline(payer, id) => RunTurn(st, payer, id, true, x)
    case Cancel(requester, id) => RunTurn(st, requester, id, false, x)
  }

  // --- what every committed state satisfies about requests ------------------

  predicate Settles(st: Store, t: Txn, id: RequestId)
    requires id in st.requests
  {
    var q := st.requests[id];
    && t.status == Completed && t.initiator == q.payer && t.key == Some(RequestKey(id))
    && t.amount == q.amount
    && q.payer in st.walletOf && t.src == st.walletOf[q.payer]
    && q.requester in st.walletOf && t.dst == st.walletOf[q.requester]
  }

  predicate Paid(st: Store, id: RequestId, link: TxnId)
    requires id in st.requests
  {
    exists k :: 0 <= k < |st.txns| && st.txns[k].id == link && Settles(st, st.txns[k], id)
  }

  predicate RequestOk(st: Store, id: RequestId)
    requires id in st.requests
  {
    var q := st.requests[id];
    && 0 < q.amount && q.requester != q.payer
    && q.requester in st.walletOf && q.payer in st.walletOf
    && q.status != Expired
    && (q.status == Approved <==> q.link.Some?)
    && (q.link.Some? ==> Paid(st, id, q.link.value))
  }

  predicate LinkedBy(st: Store, t: Txn, id: RequestId) {
    id in st.requests && st.requests[id].link == Some(t.id) && t.key == Some(RequestKey(id))
  }

  ghost predicate RequestsInv(st: Store) {
    && (forall id <- st.requests :: RequestOk(st, id))
    && (forall k :: 0 <= k < |st.txns| && st.txns[k].kind == RequestSettlement ==>
          exists id :: LinkedBy(st, st.txns[k], id))
  }

  ghost predicate StoreInv(st: Store) {
    LedgerInv(st) && RequestsInv(st)
  }

  // --- fresh ids -----------------------------------------------------------

  /** A register or create call brings ids that are not in use. */
  predicate FreshCall(st: Store, c: Call) {
    match c
    case Register(a, _) => a.user !in st.walletOf && a.wallet !in st.wallets
    case Ask(id, _, _, _) => id !in st.requests
    case _ => true
  }

  predicate MoveIdsFresh(st: Store, o: Order, x: Fresh) {
    Move(st, o, x).Moved? ==> FreshFor(st, PlanOf(st, o), x)
  }

  /** If the call would move money, the ids it is given are fresh. */
  predicate FreshIds(st: Store, c: Call, x: Inputs) {
    match c
    case Register(a, grant) => FreshFor(AddAccount(st, a), GrantPlan(a, grant), x.ids)
    case Send(_, _, _, _) => MoveIdsFresh(st, SendOrder(c), x.ids)
    case Approve(_, id) => id in st.requests ==> MoveIdsFresh(st, SettlementOrder(id, st.requests[id]), x.ids)
    case _ => true
  }

  // --- every operation keeps every invariant -------------------------------

  lemma MoveKeepsLedger(st: Store, o: Order, x: Fresh)
    requires LedgerInv(st) && o.kind != SignupGrant && Move(st, o, x).Moved? && MoveIdsFresh(st, o, x)
    ensures LedgerInv(Move(st, o, x).store)
  {
    PostKeepsLedger(st, PlanOf(st, o), x);
  }

  lemma GrantPostable(st: Store, a: Account, grant: int, x: Fresh)
    requires MINT in st.wallets && FreshCall(st, Register(a, grant))
    requires PostChecked(AddAccount(st, a), GrantPlan(a, grant), true, x).Moved?
    ensures Postable(AddAccount(st, a), GrantPlan(a, grant))
  {
  }

  lemma RegisterKeepsLedger(st: Store, a: Account, grant: int, x: Inputs)
    requires LedgerInv(st) && FreshCall(st, Register(a, grant)) && FreshIds(st, Register(a, grant), x)
    ensures LedgerInv(RunRegister(st, a, grant, x).0)
  {
    if RunRegister(st, a, grant, x).1.Registered? {
      GrantPostable(st, a, grant, x.ids);
      AccountKeepsLedger(st, a);
      PostKeepsLedger(AddAccount(st, a), GrantPlan(a, grant), x.ids);
    }
  }

  /** The rows a request depends on only grow. */
  predicate Grows(st: Store, st': Store) {
    && st.txns <= st'.txns
    && (forall u <- st.walletOf :: u in st'.walletOf && st'.walletOf[u] == st.walletOf[u])
  }

  lemma RequestOkGrows(st: Store, st': Store, id: RequestId)
    requires Grows(st, st') && id in st.requests && RequestOk(st, id)
    requires id in st'.requests && st'.requests[id] == st.requests[id]
    ensures RequestOk(st', id)
  {
    var q := st.requests[id];
    if q.link.Some? {
      var k :| 0 <= k < |st.txns| && st.txns[k].id == q.link.value && Settles(st, st.txns[k], id);
      assert st'.txns[k] == st.txns[k];
    }
  }

  lemma ResolveKeepsRequests(st: Store, mid: Store, id: RequestId, status: RequestStatus, link: Option<TxnId>)
    requires RequestsInv(st) && Grows(st, mid) && mid.requests == st.requests
    requires id in st.requests && st.requests[id].link == None
    requires status != Expired && (status == Approved <==> link.Some?)
    requires link.Some? ==> Paid(mid, id, link.value)
    requires forall k :: |st.txns| <= k < |mid.txns| && mid.txns[k].kind == RequestSettlement ==>
               link == Some(mid.txns[k].id) && mid.txns[k].key == Some(RequestKey(id))
    ensures RequestsInv(Resolve(mid, id, status, link))
  {
    var st' := Resolve(mid, id, status, link);
    forall i <- st'.requests ensures RequestOk(st', i) {
      if i == id {
        assert RequestOk(st, id);
        if link.Some? {
          var k :| 0 <= k < |mid.txns| && mid.txns[k].id == link.value && Settles(mid, mid.txns[k], id);
          assert Settles(st', st'.txns[k], id);
        }
      } else {
        RequestOkGrows(st, st', i);
      }
    }
    forall k | 0 <= k < |st'.txns| && st'.txns[k].kind == RequestSettlement
      ensures exists i :: LinkedBy(st', st'.txns[k], i)
    {
      if k < |st.txns| {
        assert st'.txns[k] == st.txns[k];
        var i :| LinkedBy(st, st.txns[k], i);
        assert LinkedBy(st', st'.txns[k], i);
      } else {
        assert LinkedBy(st', st'.txns[k], id);
      }
    }
  }

  lemma OtherKeepsRequests(st: Store, st': Store)
    requires RequestsInv(st) && Grows(st, st')
    requires forall id <- st.requests :: id in st'.requests && st'.requests[id] == st.requests[id]
    requires forall id <- st'.requests :: id !in st.requests ==> RequestOk(st', id)
    requires forall k :: |st.txns| <= k < |st'.txns| ==> st'.txns[k].kind != RequestSettlement
    ensures RequestsInv(st')
  {
    forall i <- st'.requests ensures RequestOk(st', i) {
      if i in st.requests {
        RequestOkGrows(st, st', i);
      }
    }
    forall k | 0 <= k < |st'.txns| && st'.txns[k].kind == RequestSettlement
      ensures exists i :: LinkedBy(st', st'.txns[k], i)
    {
      assert st'.txns[k] == st.txns[k];
      var i :| LinkedBy(st, st.txns[k], i);
      assert LinkedBy(st', st'.txns[k], i);
    }
  }

  function SettlementMove(st: Store, id: RequestId, x: Inputs): MoveResult
    requires id in st.requests
  {
    Move(st, SettlementOrder(id, st.requests[id]), x.ids)
  }

  lemma MovedSettlementRequests(st: Store, id: RequestId, x: Inputs)
    requires RequestsInv(st) && id in st.requests && st.requests[id].status == Pending
    requires SettlementMove(st, id, x).Moved?
    ensures RequestsInv(Resolve(SettlementMove(st, id, x).store, id, Approved, Some(x.ids.txn)))
  {
    var mid := SettlementMove(st, id, x).store;
    assert RequestOk(st, id);
    assert Settles(mid, mid.txns[|st.txns|], id);
    ResolveKeepsRequests(st, mid, id, Approved, Some(x.ids.txn));
  }

  lemma MovedSettlementLedger(st: Store, o: Order, x: Fresh, id: RequestId)
    requires LedgerInv(st) && o.kind != SignupGrant && Move(st, o, x).Moved? && MoveIdsFresh(st, o, x)
    requires id in Move(st, o, x).store.requests
    ensures LedgerInv(Resolve(Move(st, o, x).store, id, Approved, Some(x.txn)))
  {
    MoveKeepsLedger(st, o, x);
    ResolveKeepsLedger(Move(st, o, x).store, id, Approved, Some(x.txn));
  }

  lemma MovedSettlement(st: Store, id: RequestId, x: Inputs)
    requires StoreInv(st) && id in st.requests && st.requests[id].status == Pending
    requires SettlementMove(st, id, x).Moved? && FreshIds(st, Approve(st.requests[id].payer, id), x)
    ensures StoreInv(Resolve(SettlementMove(st, id, x).store, id, Approved, Some(x.ids.txn)))
  {
    MovedSettlementLedger(st, SettlementOrder(id, st.requests[id]), x.ids, id);
    MovedSettlementRequests(st, id, x);
  }

  lemma ReplayedSettlement(st: Store, id: RequestId, x: Inputs)
    requires StoreInv(st) && id in st.requests && st.requests[id].status == Pending
    requires SettlementMove(st, id, x).Replay?
    ensures StoreInv(Resolve(st, id, Approved, Some(SettlementMove(st, id, x).txn)))
  {
    var q := st.requests[id];
    assert RequestOk(st, id);
    var t := FindReplay(st.txns, q.payer, Some(RequestKey(id))).value;
    var k :| 0 <= k < |st.txns| && st.txns[k] == t;
    assert TxnOk(st, st.txns[k]);
    assert Settles(st, st.txns[k], id);
    ResolveKeepsRequests(st, st, id, Approved, Some(t.id));
    ResolveKeepsLedger(st, id, Approved, Some(t.id));
  }

  lemma ApproveKeepsInv(st: Store, payer: UserId, id: RequestId, x: Inputs)
    requires StoreInv(st) && FreshIds(st, Approve(payer, id), x)
    ensures StoreInv(RunApprove(st, payer, id, x).0)
  {
    if RunApprove(st, payer, id, x).1.Settled? {
      if SettlementMove(st, id, x).Moved? {
        MovedSettlement(st, id, x);
      } else {
        ReplayedSettlement(st, id, x);
      }
    }
  }

  /** The ledger does not depend on the request rows. */
  lemma ResolveKeepsLedger(st: Store, id: RequestId, status: RequestStatus, link: Option<TxnId>)
    requires LedgerInv(st) && id in st.requests
    ensures LedgerInv(Resolve(st, id, status, link))
  {
    RequestsOutsideLedger(st, Resolve(st, id, status, link).requests);
  }

  lemma RequestsOutsideLedger(st: Store, requests: map<RequestId, Request>)
    requires LedgerInv(st)
    ensures LedgerInv(st.(requests := requests))
  {
    var st' := st.(requests := requests);
    forall k | 0 <= k < |st'.txns| ensures TxnOk(st', st'.txns[k]) {
      assert TxnOk(st, st.txns[k]);
    }
  }

  lemma TurnKeepsInv(st: Store, actor: UserId, id: RequestId, mustPay: bool, x: Inputs)
    requires StoreInv(st)
    ensures StoreInv(RunTurn(st, actor, id, mustPay, x).0)
  {
    if RunTurn(st, actor, id, mustPay, x).1.Turned? {
      assert RequestOk(st, id);
      var status := if mustPay then Declined else Cancelled;
      ResolveKeepsRequests(st, st, id, status, None);
      ResolveKeepsLedger(st, id, status, None);
    }
  }

  lemma AskKeepsInv(st: Store, c: Call, x: Inputs)
    requires StoreInv(st) && c.Ask?
    ensures StoreInv(RunAsk(st, c, x).0)
  {
    AskKeepsLedger(st, c, x);
    if RunAsk(st, c, x).1.Asked? {
      AskKeepsRequests(st, c, x);
    }
  }

  lemma AskKeepsLedger(st: Store, c: Call, x: Inputs)
    requires LedgerInv(st) && c.Ask?
    ensures LedgerInv(RunAsk(st, c, x).0)
  {
    RequestsOutsideLedger(st, RunAsk(st, c, x).0.requests);
    assert RunAsk(st, c, x).0 == st.(requests := RunAsk(st, c, x).0.requests);
  }

  lemma AskKeepsRequests(st: Store, c: Call, x: Inputs)
    requires RequestsInv(st) && c.Ask? && RunAsk(st, c, x).1.Asked?
    ensures RequestsInv(RunAsk(st, c, x).0)
  {
    OtherKeepsRequests(st, RunAsk(st, c, x).0);
  }

  lemma SendKeepsRequests(st: Store, c: Call, x: Inputs)
    requires RequestsInv(st) && c.Send? && RunSend(st, c, x).1.Sent?
    ensures RequestsInv(RunSend(st, c, x).0)
  {
    OtherKeepsRequests(st, RunSend(st, c, x).0);
  }

  lemma SendKeepsInv(st: Store, c: Call, x: Inputs)
    requires StoreInv(st) && c.Send? && FreshIds(st, c, x)
    ensures StoreInv(RunSend(st, c, x).0)
  {
    if RunSend(st, c, x).1.Sent? {
      MoveKeepsLedger(st, SendOrder(c), x.ids);
      SendKeepsRequests(st, c, x);
    }
  }

  lemma RegisterKeepsRequests(st: Store, a: Account, grant: int, x: Inputs)
    requires RequestsInv(st) && FreshCall(st, Register(a, grant)) && RunRegister(st, a, grant, x).1.Registered?
    ensures RequestsInv(RunRegister(st, a, grant, x).0)
  {
    OtherKeepsRequests(st, RunRegister(st, a, grant, x).0);
  }

  lemma RegisterKeepsInv(st: Store, a: Account, grant: int, x: Inputs)
    requires StoreInv(st) && FreshCall(st, Register(a, grant)) && FreshIds(st, Register(a, grant), x)
    ensures StoreInv(RunRegister(st, a, grant, x).0)
  {
    RegisterKeepsLedger(st, a, grant, x);
    if RunRegister(st, a, grant, x).1.Registered? {
      RegisterKeepsRequests(st, a, grant, x);
    }
  }

  /** Any operation, successful or refused, takes a sound state to a sound state. */
  lemma RunKeepsInv(st: Store, c: Call, x: Inputs)
    requires StoreInv(st) && FreshCall(st, c) && FreshIds(st, c, x)
    ensures StoreInv(Run(st, c, x).0)
  {
    match c
    case Register(a, grant) => RegisterKeepsInv(st, a, grant, x);
    case Send(_, _, _, _) => SendKeepsInv(st, c, x);
    case Ask(_, _, _, _) => AskKeepsInv(st, c, x);
    case Approve(payer, id) => ApproveKeepsInv(st, payer, id, x);
    case Decline(payer, id) => TurnKeepsInv(st, payer, id, true, x);
    case Cancel(requester, id) => TurnKeepsInv(st, requester, id, false, x);
  }

  /** A refused operation leaves every table as it was. */
  lemma RefusalIsNoOp(st: Store, c: Call, x: Inputs)
    ensures Run(st, c, x).1.Failed? || Run(st, c, x).1.Replayed? ==> Run(st, c, x).0 == st
  {
  }

  lemma FreshStoreInv()
    ensures StoreInv(FRESH)
  {
  }

  // --- consequences ---------------------------------------------------------

  lemma DistinctLinks(st: Store, id: RequestId, other: RequestId)
    requires UniqueKeys(st.txns) && id in st.requests && other in st.requests && id != other
    requires RequestOk(st, id) && RequestOk(st, other) && st.requests[id].link.Some?
    ensures st.requests[id].link != st.requests[other].link
  {
    if st.requests[id].link == st.requests[other].link {
      var l := st.requests[id].link.value;
      var j :| 0 <= j < |st.txns| && st.txns[j].id == l && Settles(st, st.txns[j], id);
      var k :| 0 <= k < |st.txns| && st.txns[k].id == l && Settles(st, st.txns[k], other);
      assert j == k;
      RequestKeyInjective(id, other);
    }
  }

  /** Paid exactly once: an approved request has one paying transaction, no other request links it,
      and every settlement was made for one approved request. */
  lemma PaidExactlyOnce(st: Store)
    requires StoreInv(st)
    ensures forall id <- st.requests :: st.requests[id].status == Approved ==>
              st.requests[id].link.Some? && Paid(st, id, st.requests[id].link.value)
    ensures forall id <- st.requests :: st.requests[id].status != Approved ==> st.requests[id].link == None
    ensures forall id, other ::
              id in st.requests && other in st.requests && id != other && st.requests[id].link.Some? ==>
              st.requests[id].link != st.requests[other].link
    ensures forall t :: t in st.txns && t.kind == RequestSettlement ==>
              exists id :: LinkedBy(st, t, id) && st.requests[id].status == Approved
  {
    forall id <- st.requests ensures RequestOk(st, id) {}
    forall id, other | id in st.requests && other in st.requests && id != other && st.requests[id].link.Some?
      ensures st.requests[id].link != st.requests[other].link
    {
      DistinctLinks(st, id, other);
    }
    forall t | t in st.txns && t.kind == RequestSettlement
      ensures exists id :: LinkedBy(st, t, id) && st.requests[id].status == Approved
    {
      var k :| 0 <= k < |st.txns| && st.txns[k] == t;
      var id :| LinkedBy(st, st.txns[k], id);
      assert RequestOk(st, id);
    }
  }
}
