/** What type of transaction an approved request links: a settlement of its own, unless the payer has
    spent the settlement key on a transfer. */
module Settlements {
  import opened Tables
  import opened Ledger
  import opened Atomic
  import opened Interleaving
  import opened Reachability
  import opened Guarantees

  /** In a sound state the transaction that carries a pending request's key is a transfer. */
  lemma PendingKeyIsTransfer(st: Store, id: RequestId, t: Txn)
    requires StoreInv(st) && id in st.requests && st.requests[id].status == Pending
    requires t in st.txns && t.key == Some(RequestKey(id))
    ensures t.kind == Transfer
  {
    var k :| 0 <= k < |st.txns| && st.txns[k] == t;
    assert TxnOk(st, st.txns[k]) && RequestOk(st, id);
    if t.kind == RequestSettlement {
      var other :| LinkedBy(st, st.txns[k], other);
      RequestKeyInjective(id, other);
    }
  }

  /** The row that a request links has this kind. */
  predicate LinksKind(st: Store, id: RequestId, kind: TxnKind) {
    && id in st.requests && st.requests[id].link.Some?
    && exists k :: 0 <= k < |st.txns| && st.txns[k].id == st.requests[id].link.value && st.txns[k].kind == kind
  }

  lemma OneKind(st: Store, id: RequestId, kind: TxnKind, other: TxnKind)
    requires UniqueKeys(st.txns) && LinksKind(st, id, kind) && LinksKind(st, id, other)
    ensures kind == other
  {
    var j :| 0 <= j < |st.txns| && st.txns[j].id == st.requests[id].link.value && st.txns[j].kind == kind;
    var k :| 0 <= k < |st.txns| && st.txns[k].id == st.requests[id].link.value && st.txns[k].kind == other;
    assert j == k;
  }

  /** An approval that settles links a settlement exactly when the payer had made no transaction under the
      request's key before; otherwise it links that transaction, a transfer. */
  lemma SettledKind(st: Store, payer: UserId, id: RequestId, x: Inputs)
    requires StoreInv(st) && FreshIds(st, Approve(payer, id), x) && RunApprove(st, payer, id, x).1.Settled?
    ensures var st' := RunApprove(st, payer, id, x).0;
            var unused := FindReplay(st.txns, payer, Some(RequestKey(id))).None?;
            && (LinksKind(st', id, RequestSettlement) <==> unused)
            && (LinksKind(st', id, Transfer) <==> !unused)
  {
    var st' := RunApprove(st, payer, id, x).0;
    RunKeepsInv(st, Approve(payer, id), x);
    SettledLink(st, payer, id, x);
    if LinksKind(st', id, RequestSettlement) && LinksKind(st', id, Transfer) {
      OneKind(st', id, RequestSettlement, Transfer);
    }
  }

  lemma SettledLink(st: Store, payer: UserId, id: RequestId, x: Inputs)
    requires StoreInv(st) && RunApprove(st, payer, id, x).1.Settled?
    ensures LinksKind(RunApprove(st, payer, id, x).0, id,
                      if FindReplay(st.txns, payer, Some(RequestKey(id))).None? then RequestSettlement else Transfer)
  {
    match FindReplay(st.txns, payer, Some(RequestKey(id)))
    case None => NewLink(st, payer, id, x);
    case Some(t) =>
      PendingKeyIsTransfer(st, id, t);
      OldLink(st, payer, id, x, t);
  }

  lemma NewLink(st: Store, payer: UserId, id: RequestId, x: Inputs)
    requires RunApprove(st, payer, id, x).1.Settled? && FindReplay(st.txns, payer, Some(RequestKey(id))).None?
    ensures LinksKind(RunApprove(st, payer, id, x).0, id, RequestSettlement)
  {
    var st' := RunApprove(st, payer, id, x).0;
    assert st'.txns[|st.txns|] == TxnRow(PlanOf(st, SettlementOrder(id, st.requests[id])), x.ids.txn, Completed);
  }

  lemma OldLink(st: Store, payer: UserId, id: RequestId, x: Inputs, t: Txn)
    requires RunApprove(st, payer, id, x).1.Settled? && FindReplay(st.txns, payer, Some(RequestKey(id))) == Some(t)
    ensures LinksKind(RunApprove(st, payer, id, x).0, id, t.kind)
  {
    var st' := RunApprove(st, payer, id, x).0;
    var k :| 0 <= k < |st.txns| && st.txns[k] == t;
    assert st'.txns[k] == t && st'.requests[id].link == Some(t.id);
  }

  // --- every schedule ----------------------------------------------------------------

  predicate Spends(l: Logged, payer: UserId, id: RequestId) {
    l.call.Send? && l.call.sender == payer && l.call.key == Some(RequestKey(id))
  }

  /** A committed send of the payer carried the request's key. */
  predicate KeySpent(log: seq<Logged>, payer: UserId, id: RequestId) {
    exists m :: 0 <= m < |log| && Spends(log[m], payer, id)
  }

  lemma LinkedRow(st: Store, id: RequestId) returns (k: nat)
    requires StoreInv(st) && id in st.requests && st.requests[id].link.Some?
    ensures k < |st.txns| && st.txns[k].id == st.requests[id].link.value
    ensures st.txns[k].initiator == st.requests[id].payer && st.txns[k].key == Some(RequestKey(id))
    ensures st.txns[k].kind == Transfer || st.txns[k].kind == RequestSettlement
    ensures forall kind :: LinksKind(st, id, kind) <==> st.txns[k].kind == kind
  {
    assert RequestOk(st, id);
    k :| 0 <= k < |st.txns| && st.txns[k].id == st.requests[id].link.value && Settles(st, st.txns[k], id);
    assert TxnOk(st, st.txns[k]);
    assert LinksKind(st, id, st.txns[k].kind);
    forall kind | LinksKind(st, id, kind) ensures kind == st.txns[k].kind {
      OneKind(st, id, kind, st.txns[k].kind);
    }
  }

  lemma SpenderWroteIt(s: State, payer: UserId, id: RequestId, t: Txn)
    requires UniqueKeys(s.store.txns) && t in s.store.txns && Carries(t, payer, Some(RequestKey(id)))
    requires forall m :: 0 <= m < |s.log| ==> SendWritten(s.store, s.log[m])
    requires KeySpent(s.log, payer, id)
    ensures t.kind == Transfer
  {
    var m :| 0 <= m < |s.log| && Spends(s.log[m], payer, id);
    var j :| 0 <= j < |s.store.txns| && Sends(s.store, s.log[m], s.store.txns[j]);
    OneCarrier(s.store.txns, s.store.txns[j], t);
  }

  /** A settlement is documented as typed REQUEST_SETTLEMENT. In every reachable state an approved
      request links one exactly when no committed send of its payer carried the key `request:<id>`. */
  lemma LinkedKind(es: seq<Event>, id: RequestId)
    requires Exec(es, true).Some? && id in Exec(es, true).value.store.requests
    requires Exec(es, true).value.store.requests[id].status == Approved
    ensures var s := Exec(es, true).value;
            var spent := KeySpent(s.log, s.store.requests[id].payer, id);
            && (LinksKind(s.store, id, RequestSettlement) <==> !spent)
            && (LinksKind(s.store, id, Transfer) <==> spent)
  {
    var s := Exec(es, true).value;
    ReachableInv(es);
    TxnsAreLogged(es);
    SendsAreWritten(es);
    assert RequestOk(s.store, id);
    var payer := s.store.requests[id].payer;
    var k := LinkedRow(s.store, id);
    if KeySpent(s.log, payer, id) {
      SpenderWroteIt(s, payer, id, s.store.txns[k]);
    } else {
      var m :| 0 <= m < |s.log| && Wrote(s.log[m], s.store.txns[k]);
      assert !Spends(s.log[m], payer, id);
    }
  }
}
