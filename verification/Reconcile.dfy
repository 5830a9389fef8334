/** The reconciliation queries, as passes over the entry list, and the report built from them. */
module Reconcile {
  import opened Tables
  import opened Ledger
  import opened SetSums
  import opened Interleaving
  import opened Guarantees

  method LedgerSum(entries: seq<Entry>) returns (sum: int)
    ensures sum == Sum(entries, All)
  {
    sum := 0;
    for k := 0 to |entries|
      invariant sum == Sum(entries[..k], All)
    {
      sum := sum + entries[k].amount;
      assert entries[..k + 1][..k] == entries[..k];
    }
    assert entries[..|entries|] == entries;
  }

  predicate TxnTotals(totals: map<TxnId, int>, entries: seq<Entry>) {
    && (forall t <- totals :: totals[t] == Sum(entries, OfTxn(t)))
    && (forall k :: 0 <= k < |entries| ==> entries[k].txn in totals)
  }

  /** GROUP BY transaction_id HAVING SUM(amount) <> 0. */
  method UnbalancedTransactions(entries: seq<Entry>) returns (bad: set<TxnId>)
    ensures forall t: TxnId :: t in bad <==> Sum(entries, OfTxn(t)) != 0
  {
    var totals: map<TxnId, int> := map[];
    for k := 0 to |entries|
      invariant TxnTotals(totals, entries[..k])
    {
      var e := entries[k];
      if e.txn !in totals {
        SumUntouched(entries[..k], OfTxn(e.txn));
      }
      totals := totals[e.txn := (if e.txn in totals then totals[e.txn] else 0) + e.amount];
      assert entries[..k + 1][..k] == entries[..k];
    }
    assert entries[..|entries|] == entries;
    bad := set t | t in totals && totals[t] != 0;
    forall t: TxnId | t !in totals ensures Sum(entries, OfTxn(t)) == 0 {
      SumUntouched(entries, OfTxn(t));
    }
  }

  /** Wallets LEFT JOIN their entries, HAVING balance <> COALESCE(SUM(amount), 0). */
  method DriftedWallets(wallets: map<WalletId, Wallet>, entries: seq<Entry>) returns (bad: set<WalletId>)
    ensures forall w: WalletId :: w in bad <==> w in wallets && wallets[w].balance != Sum(entries, OfWallet(w))
  {
    var totals: map<WalletId, int> := map w | w in wallets :: 0;
    for k := 0 to |entries|
      invariant totals.Keys == wallets.Keys
      invariant forall w <- totals :: totals[w] == Sum(entries[..k], OfWallet(w))
    {
      var e := entries[k];
      if e.wallet in totals {
        totals := totals[e.wallet := totals[e.wallet] + e.amount];
      }
      assert entries[..k + 1][..k] == entries[..k];
    }
    assert entries[..|entries|] == entries;
    bad := set w | w in wallets && wallets[w].balance != totals[w];
  }

  /** WHERE type = 'USER' AND balance < 0, wallet by wallet; nobody is reported exactly when no user
      wallet is negative. */
  method InsolventWallets(wallets: map<WalletId, Wallet>) returns (bad: set<WalletId>)
    ensures forall w: WalletId :: w in bad <==> w in wallets && wallets[w].kind == User && wallets[w].balance < 0
    ensures bad == {} <==> Solvent(wallets)
  {
    bad := {};
    var left := wallets.Keys;
    while left != {}
      invariant left <= wallets.Keys
      invariant forall w: WalletId ::
                  w in bad <==> w in wallets.Keys - left && wallets[w].kind == User && wallets[w].balance < 0
    {
      var w :| w in left;
      left := left - {w};
      if wallets[w].kind == User && wallets[w].balance < 0 {
        bad := bad + {w};
      }
    }
    if w :| w in wallets && wallets[w].kind == User && wallets[w].balance < 0 {
      assert w in bad;
    }
  }

  datatype Report = Report(conservation: bool, balancedEvents: bool, noDrift: bool, solvency: bool, allHold: bool)

  ghost predicate Balanced(entries: seq<Entry>) {
    forall t: TxnId :: Sum(entries, OfTxn(t)) == 0
  }

  predicate Solvent(wallets: map<WalletId, Wallet>) {
    forall w <- wallets :: wallets[w].kind == User ==> 0 <= wallets[w].balance
  }

  /** What the endpoint must report when its four statements see these committed states. */
  ghost function ReportOf(s1: Store, s2: Store, s3: Store, s4: Store): Report {
    var conservation, balanced := Sum(s1.entries, All) == 0, Balanced(s2.entries);
    var noDrift, solvency := NoDrift(s3), Solvent(s4.wallets);
    Report(conservation, balanced, noDrift, solvency, conservation && balanced && noDrift && solvency)
  }

  /** The endpoint: four statements, each seeing the rows committed when it started. */
  method RunReconcile(s1: Store, s2: Store, s3: Store, s4: Store) returns (r: Report)
    ensures r == ReportOf(s1, s2, s3, s4)
  {
    var total := LedgerSum(s1.entries);
    var unbalanced := UnbalancedTransactions(s2.entries);
    var drifted := DriftedWallets(s3.wallets, s3.entries);
    var insolvent := InsolventWallets(s4.wallets);
    var conservation, balanced, noDrift, solvency := total == 0, unbalanced == {}, drifted == {}, insolvent == {};
    assert balanced <==> Balanced(s2.entries) by {
      if !balanced {
        var t :| t in unbalanced;
        assert Sum(s2.entries, OfTxn(t)) != 0;
      }
    }
    assert noDrift <==> NoDrift(s3) by {
      if !noDrift {
        var w :| w in drifted;
      }
    }
    r := Report(conservation, balanced, noDrift, solvency, conservation && balanced && noDrift && solvency);
  }

  // --- how the checks relate ---------------------------------------------------

  function TxnSum(es: seq<Entry>): TxnId -> int {
    (t: TxnId) => Sum(es, OfTxn(t))
  }

  /** Partitioning the entries by transaction loses none of them. */
  lemma {:induction false} TxnsPartition(es: seq<Entry>, ids: set<TxnId>)
    requires forall k :: 0 <= k < |es| ==> es[k].txn in ids
    ensures Total(ids, TxnSum(es)) == Sum(es, All)
  {
    if es == [] {
      TotalZero(ids, TxnSum(es));
    } else {
      var n := |es| - 1;
      TxnsPartition(es[..n], ids);
      TotalPick(ids, TxnSum(es), es[n].txn);
      TotalPick(ids, TxnSum(es[..n]), es[n].txn);
      TotalSame(ids - {es[n].txn}, TxnSum(es), TxnSum(es[..n]));
    }
  }

  /** For any entry list at all, balanced events imply conservation. */
  lemma BalancedImpliesConserved(es: seq<Entry>)
    requires Balanced(es)
    ensures Sum(es, All) == 0
  {
    var ids := set k | 0 <= k < |es| :: es[k].txn;
    TxnsPartition(es, ids);
    TotalZero(ids, TxnSum(es));
  }

  /** On one state the report is green exactly when the state reconciles. */
  lemma GreenIffReconciled(st: Store)
    ensures ReportOf(st, st, st, st).allHold <==> Reconciled(st)
  {
  }

  lemma GreenAcross(s1: Store, s2: Store, s3: Store, s4: Store)
    requires Reconciled(s1) && Reconciled(s2) && Reconciled(s3) && Reconciled(s4)
    ensures ReportOf(s1, s2, s3, s4).allHold
  {
  }

  /** The state after the first k events. */
  function StateAt(es: seq<Event>, k: nat): Store
    requires k <= |es|
  {
    match Exec(es[..k], true)
    case Some(s) => s.store
    case None => FRESH
  }

  lemma ReconciledAt(es: seq<Event>, k: nat)
    requires Exec(es, true).Some? && k <= |es|
    ensures Exec(es[..k], true).Some? && Reconciled(StateAt(es, k))
  {
    PrefixRuns(es, k);
    AlwaysReconciled(es[..k]);
  }

  /** The endpoint raises no alarm even when its four queries see four different committed states of a
      schedule. */
  lemma NoFalseAlarm(es: seq<Event>, a: nat, b: nat, c: nat, d: nat)
    requires a <= b <= c <= d <= |es| && Exec(es, true).Some?
    ensures ReportOf(StateAt(es, a), StateAt(es, b), StateAt(es, c), StateAt(es, d)).allHold
  {
    ReconciledAt(es, a);
    ReconciledAt(es, b);
    ReconciledAt(es, c);
    ReconciledAt(es, d);
    GreenAcross(StateAt(es, a), StateAt(es, b), StateAt(es, c), StateAt(es, d));
  }
}
