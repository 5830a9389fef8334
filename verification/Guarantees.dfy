/** What the interleaved system promises after every schedule. */
module Guarantees {
  import opened Tables
  import opened Ledger
  import opened Atomic
  import opened Interleaving
  import opened Invariant
  import opened Steps
  import opened Reachability

  // --- refinement: one operation at a time, in commit order ------------------

  /** The committed operations run alone, one after another, from the fresh database. */
  function Serial(log: seq<Logged>): Store {
    if log == [] then FRESH else Run(Serial(log[..|log| - 1]), log[|log| - 1].call, log[|log| - 1].x).0
  }

  /** Each operation, run alone at its place in the order, answers what the transaction answered. */
  predicate SameAnswers(log: seq<Logged>) {
    forall k :: 0 <= k < |log| ==> Run(Serial(log[..k]), log[k].call, log[k].x).1 == log[k].outcome
  }

  lemma AnswersAppend(log: seq<Logged>, l: Logged)
    requires SameAnswers(log) && Run(Serial(log), l.call, l.x).1 == l.outcome
    ensures SameAnswers(log + [l])
  {
    var more := log + [l];
    forall k | 0 <= k < |more| ensures Run(Serial(more[..k]), more[k].call, more[k].x).1 == more[k].outcome {
      if k < |log| {
        assert more[..k] == log[..k];
      } else {
        assert more[..k] == log;
      }
    }
  }

  /** An event either leaves tables and log alone or commits one transaction as one operation. */
  lemma StepRefines(s: State, e: Event)
    requires Inv(s) && Legal(s, e)
    ensures var s' := Do(s, e, true);
            if e.Act? && s.actors[e.actor].pc == Commit then
              var a := s.actors[e.actor];
              && s'.log == s.log + [Logged(e.actor, a.call, a.x, Result(a))]
              && Run(s.store, a.call, a.x) == (s'.store, Result(a))
            else
              s'.store == s.store && s'.log == s.log
  {
    if e.Act? && s.actors[e.actor].pc == Commit {
      CommitAtomic(s, e.actor);
    }
  }

  /** For any number of interleaved registrations, transfers, approvals, declines and cancellations,
      the committed tables equal those of the committed operations run one at a time in commit order,
      with the same answers; and the operations are exactly the transactions that succeeded. */
  lemma {:induction false} Refinement(es: seq<Event>)
    requires Exec(es, true).Some?
    ensures var s := Exec(es, true).value;
            s.store == Serial(s.log) && SameAnswers(s.log) && LogFits(s)
  {
    if es != [] {
      var s, e := Exec(es[..|es| - 1], true).value, es[|es| - 1];
      Refinement(es[..|es| - 1]);
      ReachableInv(es[..|es| - 1]);
      StepRefines(s, e);
      if e.Act? && s.actors[e.actor].pc == Commit {
        var a := s.actors[e.actor];
        var l := Logged(e.actor, a.call, a.x, Result(a));
        assert (s.log + [l])[..|s.log|] == s.log;
        AnswersAppend(s.log, l);
      }
      ReachableInv(es);
    }
  }

  // --- histories ------------------------------------------------------------

  lemma PrefixRuns(es: seq<Event>, k: nat)
    requires Exec(es, true).Some? && k <= |es|
    ensures Exec(es[..k], true).Some?
    decreases |es|
  {
    if k < |es| {
      assert es[..|es| - 1][..k] == es[..k];
      PrefixRuns(es[..|es| - 1], k);
    } else {
      assert es[..k] == es;
    }
  }

  lemma EventGrows(s: State, e: Event)
    requires Legal(s, e)
    ensures s.log <= Do(s, e, true).log && |s.actors| <= |Do(s, e, true).actors|
  {
  }

  lemma {:induction false} HistoryGrows(es: seq<Event>, k: nat)
    requires Exec(es, true).Some? && k <= |es| && Exec(es[..k], true).Some?
    ensures Exec(es[..k], true).value.log <= Exec(es, true).value.log
    decreases |es|
  {
    if k < |es| {
      assert es[..|es| - 1][..k] == es[..k];
      HistoryGrows(es[..|es| - 1], k);
      EventGrows(Exec(es[..|es| - 1], true).value, es[|es| - 1]);
    } else {
      assert es[..k] == es;
    }
  }

  /** The commit order respects real time: what had committed before a transaction began precedes it. */
  lemma RealTimeOrder(es: seq<Event>, k: nat, i: nat, j: nat)
    requires Exec(es, true).Some? && k <= |es| && Exec(es[..k], true).Some?
    requires var before, now := Exec(es[..k], true).value, Exec(es, true).value;
             && i < |now.log| && j < |now.log|
             && now.log[i].actor < |before.actors| && before.actors[now.log[i].actor].pc.Done?
             && before.actors[now.log[i].actor].pc == Done(now.log[i].outcome)
             && |before.actors| <= now.log[j].actor
    ensures i < j
  {
    var before, now := Exec(es[..k], true).value, Exec(es, true).value;
    HistoryGrows(es, k);
    assert LogFits(now) by {
      ReachableInv(es);
    }
    assert LogFits(before) by {
      ReachableInv(es[..k]);
    }
    var m :| 0 <= m < |before.log| && before.log[m].actor == now.log[i].actor;
    assert now.log[m] == before.log[m];
    assert m == i;
    assert forall n :: 0 <= n < |before.log| ==> now.log[n] == before.log[n] && now.log[n].actor < |before.actors|;
  }

  // --- the four invariants and the running balance ---------------------------

  lemma AlwaysReconciled(es: seq<Event>)
    requires Exec(es, true).Some?
    ensures Reconciled(Exec(es, true).value.store)
  {
    ReachableInv(es);
    LedgerReconciles(Exec(es, true).value.store);
  }

  lemma AlwaysChained(es: seq<Event>, w: WalletId)
    requires Exec(es, true).Some? && w in Exec(es, true).value.store.wallets
    ensures var st := Exec(es, true).value.store;
            var c := OfOne(st.entries, w);
            && AscendingIds(c) && Running(c)
            && st.wallets[w].balance == BalanceBefore(c, |c|)
  {
    ReachableInv(es);
    RunningBalance(Exec(es, true).value.store, w);
  }

  // --- at most once -----------------------------------------------------------

  /** However many calls with one (sender, key) interleave, one transaction at most carries the pair,
      and every replayed answer is that transaction, with the caller's amount and recipient. */
  lemma AtMostOnce(es: seq<Event>)
    requires Exec(es, true).Some?
    ensures var s := Exec(es, true).value;
            && (forall t, u :: t in s.store.txns && u in s.store.txns && Carries(t, u.initiator, u.key) ==> t == u)
            && (forall i :: 0 <= i < |s.actors| && s.actors[i].pc.Done? && s.actors[i].pc.outcome.Replayed? ==>
                  s.actors[i].call.Send? && ReplayOf(s.store, SendOrder(s.actors[i].call), s.actors[i].pc.outcome.txn))
  {
    var s := Exec(es, true).value;
    ReachableInv(es);
    forall t, u | t in s.store.txns && u in s.store.txns && Carries(t, u.initiator, u.key) ensures t == u {
      OneCarrier(s.store.txns, t, u);
    }
    forall i | 0 <= i < |s.actors| && s.actors[i].pc.Done? && s.actors[i].pc.outcome.Replayed?
      ensures s.actors[i].call.Send? && ReplayOf(s.store, SendOrder(s.actors[i].call), s.actors[i].pc.outcome.txn)
    {
      assert ActorOk(s.store, s.nextEntry, s.actors[i]);
    }
  }

  // --- failures leave nothing behind ------------------------------------------

  /** Only the commit of a transaction that then succeeds changes a committed row. */
  lemma OnlySuccessWrites(s: State, e: Event)
    requires Legal(s, e) && Do(s, e, true).store != s.store
    ensures e.Act? && var o := Do(s, e, true).actors[e.actor].pc; o.Done? && Succeeded(o.outcome)
  {
  }

  lemma {:induction false} JournalKnows(es: seq<Entry>, txns: seq<Txn>, e: Entry)
    requires Journal(es, txns) && e in es
    ensures exists k :: 0 <= k < |txns| && txns[k].id == e.txn
  {
    var n, m := |es|, |txns|;
    if txns != [] && txns[m - 1].id != e.txn {
      assert es == es[..n - 2] + [es[n - 2], es[n - 1]];
      JournalKnows(es[..n - 2], txns[..m - 1], e);
      var k :| 0 <= k < m - 1 && txns[..m - 1][k].id == e.txn;
      assert txns[k].id == e.txn;
    }
  }

  /** The k-th debit and credit are those of this transaction. */
  predicate PairAt(es: seq<Entry>, t: Txn, k: nat) {
    && 2 * k + 1 < |es| && es[2 * k].txn == es[2 * k + 1].txn == t.id
    && es[2 * k].wallet == t.src && es[2 * k].amount == -t.amount
    && es[2 * k + 1].wallet == t.dst && es[2 * k + 1].amount == t.amount
  }

  lemma {:induction false} JournalPairs(es: seq<Entry>, txns: seq<Txn>)
    requires Journal(es, txns)
    ensures |es| == 2 * |txns| && forall k :: 0 <= k < |txns| ==> PairAt(es, txns[k], k)
  {
    if txns != [] {
      var n := |txns| - 1;
      var es', txns' := es[..|es| - 2], txns[..n];
      JournalPairs(es', txns');
      forall k | 0 <= k < |txns| ensures PairAt(es, txns[k], k) {
        if k < n {
          assert PairAt(es', txns'[k], k);
        }
      }
    }
  }

  lemma TwoEach(es: seq<Entry>, txns: seq<Txn>, k: nat, m: nat)
    requires UniqueKeys(txns) && |es| == 2 * |txns| && k < |txns| && m < |es|
    requires forall i :: 0 <= i < |txns| ==> PairAt(es, txns[i], i)
    ensures es[m].txn == txns[k].id <==> m == 2 * k || m == 2 * k + 1
  {
    var h := m / 2;
    assert PairAt(es, txns[h], h) && PairAt(es, txns[k], k);
    assert m == 2 * h || m == 2 * h + 1;
  }

  /** In every reachable state each transaction has exactly two entries, its debit and its credit, side by
      side in commit order, and there are no others. */
  lemma AlwaysPaired(es: seq<Event>)
    requires Exec(es, true).Some?
    ensures var st := Exec(es, true).value.store;
            && |st.entries| == 2 * |st.txns|
            && forall k, m :: 0 <= k < |st.txns| && 0 <= m < |st.entries| ==>
                 && PairAt(st.entries, st.txns[k], k)
                 && (st.entries[m].txn == st.txns[k].id <==> m == 2 * k || m == 2 * k + 1)
  {
    var st := Exec(es, true).value.store;
    assert LedgerInv(st) by {
      ReachableInv(es);
    }
    JournalPairs(st.entries, st.txns);
    forall k, m | 0 <= k < |st.txns| && 0 <= m < |st.entries|
      ensures PairAt(st.entries, st.txns[k], k)
      ensures st.entries[m].txn == st.txns[k].id <==> m == 2 * k || m == 2 * k + 1
    {
      TwoEach(st.entries, st.txns, k, m);
    }
  }

  // --- rows and operations ------------------------------------------------------

  /** The operation that wrote the row: which call it was, and under whose key. */
  predicate Wrote(l: Logged, t: Txn) {
    && l.actor == t.id
    && match t.kind
       case SignupGrant => l.call.Register? && l.call.account.user == t.initiator
       case Transfer => l.call.Send? && l.call.sender == t.initiator && l.call.key == t.key && l.call.amount == t.amount
       case RequestSettlement => l.call.Approve? && l.call.payer == t.initiator && t.key == Some(RequestKey(l.call.id))
  }

  predicate Logs(log: seq<Logged>, t: Txn) {
    exists m :: 0 <= m < |log| && Wrote(log[m], t)
  }

  lemma LogsMore(log: seq<Logged>, more: seq<Logged>, t: Txn)
    requires Logs(log, t) && log <= more
    ensures Logs(more, t)
  {
    var m :| 0 <= m < |log| && Wrote(log[m], t);
    assert Wrote(more[m], t);
  }

  lemma CommitWrites(st: Store, n: EntryId, a: Actor, i: nat)
    requires ActorOk(st, n, a) && a.pc == Commit && a.staged.txn.Some? && a.x.ids.txn == i
    ensures Wrote(Logged(i, a.call, a.x, Result(a)), a.staged.txn.value)
  {
    if a.call.Approve? {
      assert a.row == st.requests[a.call.id] && Person(a.call) == a.row.payer;
    }
  }

  lemma EventLogsTxns(s: State, e: Event)
    requires ActorsOk(s) && TxnIdsFit(s) && Legal(s, e)
    requires forall k :: 0 <= k < |s.store.txns| ==> Logs(s.log, s.store.txns[k])
    ensures var s' := Do(s, e, true); forall k :: 0 <= k < |s'.store.txns| ==> Logs(s'.log, s'.store.txns[k])
  {
    var s' := Do(s, e, true);
    EventGrows(s, e);
    forall k | 0 <= k < |s'.store.txns| ensures Logs(s'.log, s'.store.txns[k]) {
      if k < |s.store.txns| {
        assert s'.store.txns[k] == s.store.txns[k];
        LogsMore(s.log, s'.log, s.store.txns[k]);
      } else {
        CommitWrites(s.store, s.nextEntry, s.actors[e.actor], e.actor);
        assert Wrote(s'.log[|s.log|], s'.store.txns[k]);
      }
    }
  }

  /** Every committed transaction row was written by a committed operation of the matching kind: a
      transfer by a send of its initiator under that key, a settlement by an approval by its initiator
      of the request that the key names. */
  lemma {:induction false} TxnsAreLogged(es: seq<Event>)
    requires Exec(es, true).Some?
    ensures var s := Exec(es, true).value;
            forall k :: 0 <= k < |s.store.txns| ==> Logs(s.log, s.store.txns[k])
  {
    if es != [] {
      var n := |es| - 1;
      TxnsAreLogged(es[..n]);
      ReachableInv(es[..n]);
      EventLogsTxns(Exec(es[..n], true).value, es[n]);
    }
  }

  /** The row that a successful send answers for. */
  predicate Sends(st: Store, l: Logged, t: Txn)
    requires l.call.Send?
  {
    && Known(st, SendOrder(l.call)) && l.call.sender != l.call.to && 0 < l.call.amount
    && t == TxnRow(PlanOf(st, SendOrder(l.call)), l.actor, Completed)
  }

  predicate SendWritten(st: Store, l: Logged) {
    l.call.Send? ==> l.outcome == Sent(l.actor) && exists k :: 0 <= k < |st.txns| && Sends(st, l, st.txns[k])
  }

  lemma SendWrittenGrows(st: Store, st': Store, l: Logged)
    requires SendWritten(st, l) && Grows(st, st')
    ensures SendWritten(st', l)
  {
    if l.call.Send? {
      var k :| 0 <= k < |st.txns| && Sends(st, l, st.txns[k]);
      assert Sends(st', l, st'.txns[k]);
    }
  }

  lemma CommitSends(st: Store, n: EntryId, a: Actor, i: nat)
    requires ActorOk(st, n, a) && a.pc == Commit && a.x.ids.txn == i
    ensures SendWritten(Overlay(st, a.staged), Logged(i, a.call, a.x, Result(a)))
  {
    if a.call.Send? {
      var st' := Overlay(st, a.staged);
      assert st'.txns[|st.txns|] == a.staged.txn.value;
      assert Sends(st', Logged(i, a.call, a.x, Result(a)), st'.txns[|st.txns|]);
    }
  }

  lemma EventStoreGrows(s: State, e: Event)
    requires ActorsOk(s) && Legal(s, e)
    ensures Grows(s.store, Do(s, e, true).store)
  {
    if e.Act? && s.actors[e.actor].pc == Commit {
      CommitTouches(s.store, s.nextEntry, s.actors[e.actor]);
    }
  }

  lemma EventWritesSends(s: State, e: Event)
    requires ActorsOk(s) && TxnIdsFit(s) && Legal(s, e)
    requires forall m :: 0 <= m < |s.log| ==> SendWritten(s.store, s.log[m])
    ensures var s' := Do(s, e, true); forall m :: 0 <= m < |s'.log| ==> SendWritten(s'.store, s'.log[m])
  {
    var s' := Do(s, e, true);
    EventStoreGrows(s, e);
    EventGrows(s, e);
    forall m | 0 <= m < |s'.log| ensures SendWritten(s'.store, s'.log[m]) {
      if m < |s.log| {
        assert s'.log[m] == s.log[m];
        SendWrittenGrows(s.store, s'.store, s.log[m]);
      } else {
        CommitSends(s.store, s.nextEntry, s.actors[e.actor], e.actor);
      }
    }
  }

  /** A send that answered with a transaction wrote it: its row is there, with the sender's wallet, the
      recipient's, the amount and the key of the call. */
  lemma {:induction false} SendsAreWritten(es: seq<Event>)
    requires Exec(es, true).Some?
    ensures var s := Exec(es, true).value; forall m :: 0 <= m < |s.log| ==> SendWritten(s.store, s.log[m])
  {
    if es != [] {
      var n := |es| - 1;
      SendsAreWritten(es[..n]);
      ReachableInv(es[..n]);
      EventWritesSends(Exec(es[..n], true).value, es[n]);
    }
  }

  /** A transaction that ended in a refusal or a replay is not among the committed operations, and no
      committed transaction row or ledger entry bears its id. */
  lemma FailureLeavesNoTrace(es: seq<Event>, i: nat)
    requires Exec(es, true).Some? && i < |Exec(es, true).value.actors|
    requires var pc := Exec(es, true).value.actors[i].pc; pc.Done? && !Succeeded(pc.outcome)
    ensures var s := Exec(es, true).value;
            && (forall k :: 0 <= k < |s.log| ==> s.log[k].actor != i)
            && (forall k :: 0 <= k < |s.store.txns| ==> s.store.txns[k].id != i)
            && (forall e :: e in s.store.entries ==> e.txn != i)
  {
    TxnsAreLogged(es);
    var s := Exec(es, true).value;
    ReachableInv(es);
    assert LogFits(s);
    forall k | 0 <= k < |s.store.txns| ensures s.store.txns[k].id != i {
      var m :| 0 <= m < |s.log| && Wrote(s.log[m], s.store.txns[k]);
    }
    forall e | e in s.store.entries ensures e.txn != i {
      JournalKnows(s.store.entries, s.store.txns, e);
    }
  }
}
