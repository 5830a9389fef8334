/** The life of a money request over every interleaving of approvals, declines, cancellations and
    the clock; and the read-side computations on request rows. */
module RequestRuns {
  import opened Tables
  import opened Atomic
  import opened Interleaving
  import opened Invariant
  import opened Steps
  import opened Reachability

  /** A pending row q became r by the hand of the right party, who held its row lock and read a clock
      before the expiry. */
  predicate ProperTurn(s: State, a: Actor, id: RequestId, q: Request, r: Request) {
    && a.pc == Commit && a.heldRow == Some(id) && ActsOnRequest(a.call) && a.call.id == id
    && q.status == Pending && q.link == None
    && a.x.now < q.expires && a.x.now <= s.clock
    && match a.call
       case Approve(p, _) => p == q.payer && a.x.pinOk && a.x.active
                              && r == q.(status := Approved, link := Some(a.moved))
       case Decline(p, _) => p == q.payer && r == q.(status := Declined)
       case _ => a.call.requester == q.requester && r == q.(status := Cancelled)
  }

  lemma CommittedTurn(st: Store, n: EntryId, a: Actor, id: RequestId)
    requires ActorOk(st, n, a) && a.pc == Commit && id in st.requests && RequestOk(st, id)
    ensures id in Overlay(st, a.staged).requests
    ensures var r := Overlay(st, a.staged).requests[id];
            r == st.requests[id] ||
            (a.heldRow == Some(id) && ActsOnRequest(a.call) && a.call.id == id
             && r == Marked(a) && a.row == st.requests[id])
  {
  }

  lemma MarkedProperly(s: State, a: Actor, id: RequestId)
    requires ActorOk(s.store, s.nextEntry, a) && a.pc == Commit && a.x.now <= s.clock
    requires id in s.store.requests && RequestOk(s.store, id)
    requires a.heldRow == Some(id) && ActsOnRequest(a.call) && a.call.id == id && a.row == s.store.requests[id]
    ensures ProperTurn(s, a, id, s.store.requests[id], Marked(a))
  {
  }

  /** One event changes a request row only by a proper turn away from PENDING. */
  lemma RequestStep(s: State, e: Event, id: RequestId)
    requires Inv(s) && Legal(s, e) && id in s.store.requests
    ensures id in Do(s, e, true).store.requests
    ensures var q, r := s.store.requests[id], Do(s, e, true).store.requests[id];
            r == q || (e.Act? && ProperTurn(s, s.actors[e.actor], id, q, r))
  {
    if e.Act? && s.actors[e.actor].pc == Commit {
      assert RequestOk(s.store, id);
      assert ActorsOk(s) && ClocksFit(s);
      assert ActorOk(s.store, s.nextEntry, s.actors[e.actor]);
      CommittedTurn(s.store, s.nextEntry, s.actors[e.actor], id);
      if Do(s, e, true).store.requests[id] != s.store.requests[id] {
        MarkedProperly(s, s.actors[e.actor], id);
      }
    }
  }

  /** A request that has left PENDING keeps its row for ever: it is answered at most once. */
  lemma {:induction false} AnsweredForever(es: seq<Event>, k: nat, id: RequestId)
    requires Exec(es, true).Some? && k <= |es| && Exec(es[..k], true).Some?
    requires id in Exec(es[..k], true).value.store.requests
    requires Exec(es[..k], true).value.store.requests[id].status != Pending
    ensures id in Exec(es, true).value.store.requests
    ensures Exec(es, true).value.store.requests[id] == Exec(es[..k], true).value.store.requests[id]
    decreases |es|
  {
    if k < |es| {
      assert es[..|es| - 1][..k] == es[..k];
      AnsweredForever(es[..|es| - 1], k, id);
      ReachableInv(es[..|es| - 1]);
      RequestStep(Exec(es[..|es| - 1], true).value, es[|es| - 1], id);
    } else {
      assert es[..k] == es;
    }
  }

  /** In every reachable state: EXPIRED is never stored; a request is APPROVED exactly when it links a
      transaction; that transaction is the payer's, completed, under the settlement key, for the
      amount and to the requester's wallet; distinct requests link distinct transactions; and every
      settlement is linked by one approved request. */
  lemma AlwaysPaidOnce(es: seq<Event>)
    requires Exec(es, true).Some?
    ensures var st := Exec(es, true).value.store;
            && (forall id <- st.requests :: st.requests[id].status != Expired
                  && (st.requests[id].status == Approved <==> st.requests[id].link.Some?)
                  && (st.requests[id].link.Some? ==> Paid(st, id, st.requests[id].link.value)))
            && (forall id, other ::
                  id in st.requests && other in st.requests && id != other && st.requests[id].link.Some? ==>
                  st.requests[id].link != st.requests[other].link)
            && (forall t :: t in st.txns && t.kind == RequestSettlement ==>
                  exists id :: LinkedBy(st, t, id) && st.requests[id].status == Approved)
  {
    ReachableInv(es);
    var st := Exec(es, true).value.store;
    PaidExactlyOnce(st);
    forall id <- st.requests ensures RequestOk(st, id) {}
  }

  /** While a request row is locked, no other transaction can change it. */
  lemma LockedRowStable(s: State, e: Event, i: nat)
    requires Inv(s) && Legal(s, e) && i < |s.actors| && s.actors[i].heldRow.Some?
    requires !Concerns(e, i)
    ensures var id := s.actors[i].heldRow.value;
            && id in s.store.requests && id in Do(s, e, true).store.requests
            && Do(s, e, true).store.requests[id] == s.store.requests[id] == s.actors[i].row
  {
    assert ActorsOk(s) && AllApart(s);
    assert ActorOk(s.store, s.nextEntry, s.actors[i]);
    var id := s.actors[i].heldRow.value;
    RequestStep(s, e, id);
    if e.Act? {
      assert Apart(s.actors[i], s.actors[e.actor]);
    }
  }

  /** A wallet that a transaction has locked keeps its committed balance until that transaction ends. */
  lemma LockedBalanceStable(s: State, e: Event, i: nat, w: WalletId)
    requires Inv(s) && Legal(s, e) && i < |s.actors| && w in s.actors[i].held && w in s.store.wallets
    requires !Concerns(e, i)
    ensures w in Do(s, e, true).store.wallets && Do(s, e, true).store.wallets[w] == s.store.wallets[w]
  {
    assert ActorsOk(s) && AllApart(s);
    if e.Act? && s.actors[e.actor].pc == Commit {
      assert Apart(s.actors[i], s.actors[e.actor]);
      CommitTouches(s.store, s.nextEntry, s.actors[e.actor]);
    }
  }

  // --- reads ----------------------------------------------------------------

  predicate IncomingPending(q: Request, user: UserId, now: int) {
    q.payer == user && q.status == Pending && q.expires > now
  }

  /** The rows a payer can still act on, by the computed status. */
  function PendingIncoming(rows: seq<Request>, user: UserId, now: int): nat {
    if rows == [] then 0
    else
      var last := rows[|rows| - 1];
      PendingIncoming(rows[..|rows| - 1], user, now)
      + (if last.payer == user && EffectiveStatus(last, now) == Pending then 1 else 0)
  }

  /** count_pending_incoming filters on the stored status and the expiry; it counts exactly the rows
      whose effective status is PENDING. */
  method CountPendingIncoming(rows: seq<Request>, user: UserId, now: int) returns (count: nat)
    ensures count == PendingIncoming(rows, user, now)
  {
    count := 0;
    for k := 0 to |rows|
      invariant count == PendingIncoming(rows[..k], user, now)
    {
      if IncomingPending(rows[k], user, now) {
        count := count + 1;
      }
      assert rows[..k + 1][..k] == rows[..k];
    }
    assert rows[..|rows|] == rows;
  }

  /** A row that counts is one its payer's approval would get past the judgement, and conversely. */
  lemma CountedIsActionable(q: Request, user: UserId, now: int)
    ensures IncomingPending(q, user, now) <==> Verdict(q, user, true, now) == None
  {
  }
}
