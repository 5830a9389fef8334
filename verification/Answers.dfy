/** What every operation answers and does, in the order in which it looks, in plain terms of the rows
    before and after. */
module Answers {
  import opened Tables
  import opened Ledger
  import opened Atomic
  import opened Interleaving
  import opened Invariant
  import opened Reachability
  import opened Supply

  // --- what a movement of money does to the tables --------------------------------------

  /** The amount leaves one wallet and reaches the other; no other wallet changes. */
  predicate Balances(before: map<WalletId, Wallet>, after: map<WalletId, Wallet>, src: WalletId, dst: WalletId,
                     amount: int) {
    && after.Keys == before.Keys
    && forall w <- before ::
         && after[w].kind == before[w].kind
         && after[w].balance == before[w].balance + if w == src then -amount else if w == dst then amount else 0
  }

  /** One more transaction, completed, with these contents. */
  predicate Records(st: Store, st': Store, kind: TxnKind, src: WalletId, dst: WalletId, amount: int, initiator: UserId,
                    key: Option<Key>, id: TxnId) {
    && |st'.txns| == |st.txns| + 1 && st.txns <= st'.txns
    && var t := st'.txns[|st.txns|];
       && t.id == id && t.kind == kind && t.status == Completed && t.amount == amount
       && t.src == src && t.dst == dst && t.initiator == initiator && t.key == key
  }

  /** Two more entries, a debit and a credit, each with the wallet's balance after it. */
  predicate Enters(st: Store, st': Store, src: WalletId, dst: WalletId, amount: int, x: Fresh) {
    && |st'.entries| == |st.entries| + 2 && st.entries <= st'.entries
    && src in st'.wallets && dst in st'.wallets
    && var d, c := st'.entries[|st.entries|], st'.entries[|st.entries| + 1];
       && d.id == x.debit && d.txn == x.txn && d.wallet == src && d.amount == -amount && d.at == x.at
       && d.balanceAfter == st'.wallets[src].balance
       && c.id == x.credit && c.txn == x.txn && c.wallet == dst && c.amount == amount && c.at == x.at
       && c.balanceAfter == st'.wallets[dst].balance
  }

  predicate Transfers(st: Store, st': Store, kind: TxnKind, src: WalletId, dst: WalletId, amount: int,
                      initiator: UserId, key: Option<Key>, x: Fresh) {
    && Balances(st.wallets, st'.wallets, src, dst, amount)
    && Records(st, st', kind, src, dst, amount, initiator, key, x.txn)
    && Enters(st, st', src, dst, amount, x)
    && st'.phones == st.phones && st'.walletOf == st.walletOf
  }

  lemma PostTransfers(st: Store, p: Plan, x: Fresh)
    requires p.src in st.wallets && p.dst in st.wallets && p.src != p.dst
    ensures Transfers(st, Post(st, p, x), p.kind, p.src, p.dst, p.amount, p.initiator, p.key, x)
    ensures Post(st, p, x).requests == st.requests
  {
  }

  // --- send -----------------------------------------------------------------------------

  /** Every answer of a send, and what it does: the recipient, then the PIN, then the replay, then the
      amount and the balance. */
  lemma SendAnswers(st: Store, c: Call, x: Inputs)
    requires LedgerInv(st) && c.Send?
    ensures var (st', o) := Run(st, c, x);
            if !x.active then (st', o) == (st, Failed(RecipientNotFound))
            else if c.sender == c.to then (st', o) == (st, Failed(SelfTransfer))
            else if !x.pinOk then (st', o) == (st, Failed(InvalidPin))
            else if c.sender !in st.walletOf || c.to !in st.walletOf then (st', o) == (st, Failed(WalletMissing))
            else
              match FindReplay(st.txns, c.sender, c.key)
              case Some(t) =>
                (st', o) == (st, if t.amount == c.amount && t.dst == st.walletOf[c.to] then Replayed(t.id)
                                 else Failed(KeyConflict))
              case None =>
                var src, dst := st.walletOf[c.sender], st.walletOf[c.to];
                if c.amount <= 0 then (st', o) == (st, Failed(BadAmount))
                else if st.wallets[src].balance < c.amount then (st', o) == (st, Failed(InsufficientFunds))
                else if IndexHit(st.txns, c.sender, c.key) then (st', o) == (st, Failed(IntegrityFailure))
                else
                  && o == Sent(x.ids.txn) && st'.requests == st.requests
                  && Transfers(st, st', Transfer, src, dst, c.amount, c.sender, c.key, x.ids)
  {
    if x.active && c.sender != c.to && x.pinOk && Known(st, SendOrder(c)) {
      var p := PlanOf(st, SendOrder(c));
      MoveAnswers(st, SendOrder(c), x.ids);
      PostTransfers(st, p, x.ids);
    }
  }

  // --- register -------------------------------------------------------------------------

  /** A new user with this phone and a wallet that holds the grant, which came out of the mint. */
  predicate Enrols(st: Store, st': Store, a: Account, grant: int, x: Fresh) {
    && st'.phones == st.phones[a.phone := a.user] && st'.walletOf == st.walletOf[a.user := a.wallet]
    && st'.requests == st.requests
    && Balances(st.wallets[a.wallet := Wallet(User, 0)], st'.wallets, MINT, a.wallet, grant)
    && Records(st, st', SignupGrant, MINT, a.wallet, grant, a.user, None, x.txn)
    && Enters(st, st', MINT, a.wallet, grant, x)
  }

  /** Every answer of a registration, and what it does. */
  lemma RegisterAnswers(st: Store, a: Account, grant: int, x: Inputs)
    requires LedgerInv(st) && FreshCall(st, Register(a, grant))
    ensures var (st', o) := Run(st, Register(a, grant), x);
            if a.phone in st.phones then (st', o) == (st, Failed(PhoneTaken))
            else if grant <= 0 then (st', o) == (st, Failed(BadAmount))
            else if MAX_NUMERIC < GrantTotal(st.txns) + grant then (st', o) == (st, Failed(NumericOverflow))
            else o == Registered(x.ids.txn) && Enrols(st, st', a, grant, x.ids)
  {
    if a.phone !in st.phones && 0 < grant {
      RegistrationOverflows(st, a, grant, x);
      if RunRegister(st, a, grant, x).1.Registered? {
        PostTransfers(AddAccount(st, a), GrantPlan(a, grant), x.ids);
      }
    }
  }

  // --- requests -------------------------------------------------------------------------

  // 72 hours in microseconds.
  const THREE_DAYS: int := 259_200_000_000

  /** Every answer of a new request: who owes whom how much, unanswered, and for how long. */
  lemma AskAnswers(st: Store, id: RequestId, requester: UserId, payer: UserId, amount: int, x: Inputs)
    ensures var (st', o) := Run(st, Ask(id, requester, payer, amount), x);
            if payer !in st.walletOf || !x.active then (st', o) == (st, Failed(RecipientNotFound))
            else if payer == requester then (st', o) == (st, Failed(SelfRequest))
            else if !FitsNumeric(amount) then (st', o) == (st, Failed(NumericOverflow))
            else if requester !in st.walletOf || amount <= 0 || id in st.requests then
              (st', o) == (st, Failed(IntegrityFailure))
            else
              && o == Asked
              && st' == st.(requests :=
                   st.requests[id := Request(requester, payer, amount, Pending, None, x.now + THREE_DAYS)])
  {
  }

  /** The two ways to turn a request away: by its payer, who declines, and by its requester, who cancels. */
  function TurnCall(id: RequestId, actor: UserId, decline: bool): Call {
    if decline then Decline(actor, id) else Cancel(actor, id)
  }

  /** Every answer of a decline and of a cancellation: the party, then the expiry, then the status; and the
      one row that changes, in its status only. */
  lemma TurnAnswers(st: Store, id: RequestId, actor: UserId, decline: bool, x: Inputs)
    requires RequestsInv(st)
    ensures var (st', o) := Run(st, TurnCall(id, actor, decline), x);
            if id !in st.requests then (st', o) == (st, Failed(RequestNotFound))
            else
              var q := st.requests[id];
              if actor != (if decline then q.payer else q.requester) then (st', o) == (st, Failed(RequestNotFound))
              else if q.status != Pending then (st', o) == (st, Failed(RequestNotPending))
              else if q.expires <= x.now then (st', o) == (st, Failed(RequestExpired))
              else
                var status := if decline then Declined else Cancelled;
                o == Turned(status) && st' == st.(requests := st.requests[id := q.(status := status)])
  {
    assert id in st.requests ==> RequestOk(st, id);
  }

  /** From its making on, and as long as nobody has answered it, a request can be declined by its payer and
      cancelled by its requester exactly during the next 72 hours. */
  lemma ActionableForThreeDays(st: Store, id: RequestId, requester: UserId, payer: UserId, amount: int, x: Inputs,
                               later: Store, y: Inputs, decline: bool)
    requires Run(st, Ask(id, requester, payer, amount), x).1 == Asked
    requires id in later.requests && later.requests[id] == Run(st, Ask(id, requester, payer, amount), x).0.requests[id]
    ensures var actor := if decline then payer else requester;
            Run(later, TurnCall(id, actor, decline), y).1.Turned? <==> y.now < x.now + THREE_DAYS
  {
  }

  /** The request rows once this one is approved and linked. */
  function Approves(st: Store, id: RequestId, link: TxnId): map<RequestId, Request>
    requires id in st.requests
  {
    var q := st.requests[id];
    st.requests[id := Request(q.requester, q.payer, q.amount, Approved, Some(link), q.expires)]
  }

  /** An approval that passes its checks does what the movement of the money does. */
  lemma ApproveIsMove(st: Store, payer: UserId, id: RequestId, x: Inputs)
    requires id in st.requests && RequestOk(st, id)
    ensures var ((st', o), q) := (Run(st, Approve(payer, id), x), st.requests[id]);
            if q.payer != payer then (st', o) == (st, Failed(RequestNotFound))
            else if q.status != Pending then (st', o) == (st, Failed(RequestNotPending))
            else if q.expires <= x.now then (st', o) == (st, Failed(RequestExpired))
            else if !x.pinOk then (st', o) == (st, Failed(InvalidPin))
            else if !x.active then (st', o) == (st, Failed(RecipientNotFound))
            else
              match Move(st, SettlementOrder(id, q), x.ids)
              case Moved(mid) =>
                o == Settled(x.ids.txn) &&
                (mid.requests == st.requests ==> st' == mid.(requests := Approves(st, id, x.ids.txn)))
              case Replay(t) => o == Settled(t) && st' == st.(requests := Approves(st, id, t))
              case Refused(e) => (st', o) == (st, Failed(e))
  {
  }

  lemma SettlementMove(st: Store, id: RequestId, x: Fresh)
    requires StoreInv(st) && id in st.requests
    ensures var q := st.requests[id];
            && RequestOk(st, id) && Known(st, SettlementOrder(id, q)) && st.walletOf[q.payer] in st.wallets
            && var src, dst := st.walletOf[q.payer], st.walletOf[q.requester];
               match FindReplay(st.txns, q.payer, Some(RequestKey(id)))
               case Some(t) =>
                 Move(st, SettlementOrder(id, q), x) ==
                 if t.amount == q.amount && t.dst == dst then Replay(t.id) else Refused(KeyConflict)
               case None =>
                 if st.wallets[src].balance < q.amount then
                   Move(st, SettlementOrder(id, q), x) == Refused(InsufficientFunds)
                 else
                   var m := Move(st, SettlementOrder(id, q), x);
                   && m.Moved? && m.store.requests == st.requests
                   && Transfers(st, m.store, RequestSettlement, src, dst, q.amount, q.payer, Some(RequestKey(id)), x)
  {
    assert RequestOk(st, id);
    var o := SettlementOrder(id, st.requests[id]);
    MoveAnswers(st, o, x);
    PostTransfers(st, PlanOf(st, o), x);
  }

  /** Every answer of an approval: the party, the status, the expiry, the PIN, the requester's account, the
      key, the balance. What it does is one payment, or none when the key was paid under already, and the
      request's status and link. */
  lemma ApproveInOrder(st: Store, payer: UserId, id: RequestId, x: Inputs)
    requires StoreInv(st)
    ensures var (st', o) := Run(st, Approve(payer, id), x);
            if id !in st.requests || st.requests[id].payer != payer then (st', o) == (st, Failed(RequestNotFound))
            else
              var q := st.requests[id];
              if q.status != Pending then (st', o) == (st, Failed(RequestNotPending))
              else if q.expires <= x.now then (st', o) == (st, Failed(RequestExpired))
              else if !x.pinOk then (st', o) == (st, Failed(InvalidPin))
              else if !x.active then (st', o) == (st, Failed(RecipientNotFound))
              else
                && payer in st.walletOf && q.requester in st.walletOf
                && var src, dst := st.walletOf[payer], st.walletOf[q.requester];
                   match FindReplay(st.txns, payer, Some(RequestKey(id)))
                   case Some(t) =>
                     if t.amount == q.amount && t.dst == dst then
                       o == Settled(t.id) && st' == st.(requests := Approves(st, id, t.id))
                     else (st', o) == (st, Failed(KeyConflict))
                   case None =>
                     && src in st.wallets
                     && if st.wallets[src].balance < q.amount then (st', o) == (st, Failed(InsufficientFunds))
                        else
                          && o == Settled(x.ids.txn) && st'.requests == Approves(st, id, x.ids.txn)
                          && Transfers(st, st', RequestSettlement, src, dst, q.amount, payer, Some(RequestKey(id)),
                                       x.ids)
  {
    if id in st.requests {
      SettlementMove(st, id, x.ids);
      ApproveIsMove(st, payer, id, x);
    }
  }

  // --- phones ---------------------------------------------------------------------------

  /** Whatever is called, a registered phone keeps its user. */
  lemma PhonesKept(st: Store, c: Call, x: Inputs, phone: string)
    requires phone in st.phones
    ensures var st' := Run(st, c, x).0; phone in st'.phones && st'.phones[phone] == st.phones[phone]
  {
  }

  lemma EventKeepsPhones(s: State, e: Event, phone: string)
    requires Inv(s) && Legal(s, e) && phone in s.store.phones
    ensures var st' := Do(s, e, true).store; phone in st'.phones && st'.phones[phone] == s.store.phones[phone]
  {
    if e.Act? && s.actors[e.actor].pc == Commit {
      CommitAtomic(s, e.actor);
      PhonesKept(s.store, s.actors[e.actor].call, s.actors[e.actor].x, phone);
    }
  }

  /** Nor does any schedule ever give a registered phone to another user. */
  lemma {:induction false} PhonesNeverMove(es: seq<Event>, k: nat, phone: string)
    requires k <= |es| && Exec(es, true).Some? && Exec(es[..k], true).Some?
    requires phone in Exec(es[..k], true).value.store.phones
    ensures phone in Exec(es, true).value.store.phones
    ensures Exec(es, true).value.store.phones[phone] == Exec(es[..k], true).value.store.phones[phone]
    decreases |es|
  {
    if k == |es| {
      assert es[..k] == es;
    } else {
      assert es[..|es| - 1][..k] == es[..k];
      PhonesNeverMove(es[..|es| - 1], k, phone);
      ReachableInv(es[..|es| - 1]);
      EventKeepsPhones(Exec(es[..|es| - 1], true).value, es[|es| - 1], phone);
    }
  }
}
