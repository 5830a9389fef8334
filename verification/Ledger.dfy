/** The double-entry ledger: signed sums, the effect of one posted event, and what every
    committed state satisfies. */
module Ledger {
  import opened Tables

  // --- sums over entries ---------------------------------------------------

  datatype Selection = All | OfWallet(wallet: WalletId) | OfTxn(txn: TxnId)

  predicate Selected(sel: Selection, e: Entry) {
    match sel
    case All => true
    case OfWallet(w) => e.wallet == w
    case OfTxn(t) => e.txn == t
  }

  function Share(sel: Selection, e: Entry): int {
    if Selected(sel, e) then e.amount else 0
  }

  /** SUM(amount) over the selected entries; 0 when there are none. */
  function Sum(es: seq<Entry>, sel: Selection): int {
    if es == [] then 0 else Sum(es[..|es| - 1], sel) + Share(sel, es[|es| - 1])
  }

  lemma SumAppend(es: seq<Entry>, e: Entry, sel: Selection)
    ensures Sum(es + [e], sel) == Sum(es, sel) + Share(sel, e)
  {
    assert (es + [e])[..|es|] == es;
  }

  lemma SumAppend2(es: seq<Entry>, d: Entry, c: Entry, sel: Selection)
    ensures Sum(es + [d, c], sel) == Sum(es, sel) + Share(sel, d) + Share(sel, c)
  {
    assert es + [d, c] == (es + [d]) + [c];
    SumAppend(es + [d], c, sel);
    SumAppend(es, d, sel);
  }

  lemma {:induction false} SumUntouched(es: seq<Entry>, sel: Selection)
    requires forall k :: 0 <= k < |es| ==> !Selected(sel, es[k])
    ensures Sum(es, sel) == 0
  {
    if es != [] {
      SumUntouched(es[..|es| - 1], sel);
    }
  }

  // --- lookups over transactions ------------------------------------------

  predicate Carries(t: Txn, initiator: UserId, key: Option<Key>) {
    key.Some? && t.initiator == initiator && t.key == key
  }

  /** The partial unique index uq_idem already holds this pair. */
  predicate IndexHit(txns: seq<Txn>, initiator: UserId, key: Option<Key>) {
    exists k :: 0 <= k < |txns| && Carries(txns[k], initiator, key)
  }

  function Latest(txns: seq<Txn>, initiator: UserId, key: Option<Key>): (r: Option<Txn>)
    ensures r.None? <==> !IndexHit(txns, initiator, key)
    ensures r.Some? ==> r.value in txns && Carries(r.value, initiator, key)
  {
    if txns == [] then None
    else
      var last := txns[|txns| - 1];
      if Carries(last, initiator, key) then Some(last) else Latest(txns[..|txns| - 1], initiator, key)
  }

  /** The replay lookup. A missing or empty key never replays. */
  function FindReplay(txns: seq<Txn>, initiator: UserId, key: Option<Key>): (r: Option<Txn>)
    ensures r.Some? ==> r.value in txns && Carries(r.value, initiator, key)
    ensures r.Some? <==> key.Some? && key.value != "" && IndexHit(txns, initiator, key)
  {
    if key.None? || key.value == "" then None else Latest(txns, initiator, key)
  }

  predicate UniqueKeys(txns: seq<Txn>) {
    forall i, j :: 0 <= i < j < |txns| ==>
      txns[i].id != txns[j].id && !Carries(txns[i], txns[j].initiator, txns[j].key)
  }

  lemma OneCarrier(txns: seq<Txn>, t: Txn, u: Txn)
    requires UniqueKeys(txns) && t in txns && u in txns && Carries(t, u.initiator, u.key)
    ensures t == u
  {
    var i :| 0 <= i < |txns| && txns[i] == t;
    var j :| 0 <= j < |txns| && txns[j] == u;
    assert !(i < j) && !(j < i);
  }

  // --- posting one event ---------------------------------------------------

  datatype Plan = Plan(kind: TxnKind, src: WalletId, dst: WalletId, amount: int, initiator: UserId, key: Option<Key>)

  /** Fresh values the database supplies: row ids and the transaction's start time. */
  datatype Fresh = Fresh(txn: TxnId, debit: EntryId, credit: EntryId, at: int)

  function TxnRow(p: Plan, id: TxnId, status: TxnStatus): Txn {
    Txn(id, p.kind, status, p.amount, p.src, p.dst, p.initiator, p.key)
  }

  function DebitRow(p: Plan, x: Fresh, balance: int): Entry {
    Entry(x.debit, x.txn, p.src, -p.amount, balance - p.amount, x.at)
  }

  function CreditRow(p: Plan, x: Fresh, balance: int): Entry {
    Entry(x.credit, x.txn, p.dst, p.amount, balance + p.amount, x.at)
  }

  /** The atomic effect of one posted event. */
  function Post(st: Store, p: Plan, x: Fresh): Store
    requires p.src in st.wallets && p.dst in st.wallets
  {
    var s, d := st.wallets[p.src], st.wallets[p.dst];
    st.(wallets := st.wallets[p.src := s.(balance := s.balance - p.amount)]
                             [p.dst := d.(balance := d.balance + p.amount)],
        txns := st.txns + [TxnRow(p, x.txn, Completed)],
        entries := st.entries + [DebitRow(p, x, s.balance), CreditRow(p, x, d.balance)])
  }

  // --- what every committed state satisfies --------------------------------

  predicate WalletsOk(st: Store) {
    && MINT in st.wallets
    && (forall w <- st.wallets :: st.wallets[w].kind == System <==> w == MINT)
    && (forall w <- st.wallets :: FitsNumeric(st.wallets[w].balance))
    && (forall w <- st.wallets :: st.wallets[w].kind == User ==> 0 <= st.wallets[w].balance)
  }

  predicate OwnersOk(st: Store) {
    && (forall u <- st.walletOf :: st.walletOf[u] in st.wallets && st.walletOf[u] != MINT)
    && (forall u, v :: u in st.walletOf && v in st.walletOf && st.walletOf[u] == st.walletOf[v] ==> u == v)
    && (forall p <- st.phones :: st.phones[p] in st.walletOf)
  }

  /** Each completed transaction wrote one debit and one credit, side by side, in commit order. */
  predicate Journal(es: seq<Entry>, txns: seq<Txn>) {
    if txns == [] then es == []
    else
      var t := txns[|txns| - 1];
      && |es| >= 2
      && (var d, c := es[|es| - 2], es[|es| - 1];
          && d.txn == t.id && c.txn == t.id
          && d.wallet == t.src && c.wallet == t.dst
          && d.amount == -t.amount && c.amount == t.amount)
      && Journal(es[..|es| - 2], txns[..|txns| - 1])
  }

  predicate TxnOk(st: Store, t: Txn) {
    && t.status == Completed && 0 < t.amount <= MAX_NUMERIC
    && t.src in st.wallets && t.dst in st.wallets && t.src != t.dst && t.dst != MINT
    && t.initiator in st.walletOf
    && (t.kind == SignupGrant ==> t.src == MINT && t.dst == st.walletOf[t.initiator] && t.key == None)
    && (t.kind != SignupGrant ==> t.src == st.walletOf[t.initiator])
  }

  predicate TxnsOk(st: Store) {
    forall k :: 0 <= k < |st.txns| ==> TxnOk(st, st.txns[k])
  }

  predicate EntriesOk(st: Store) {
    forall k :: 0 <= k < |st.entries| ==> st.entries[k].wallet in st.wallets
  }

  /** wallets.balance is the sum of the wallet's entries. */
  predicate NoDrift(st: Store) {
    forall w <- st.wallets :: st.wallets[w].balance == Sum(st.entries, OfWallet(w))
  }

  /** balance_after of an entry is the sum of its wallet's entries up to and including it. */
  predicate Chained(es: seq<Entry>) {
    es == [] ||
    (Chained(es[..|es| - 1]) &&
     es[|es| - 1].balanceAfter == Sum(es, OfWallet(es[|es| - 1].wallet)))
  }

  /** Within a wallet, entry ids grow in commit order. */
  predicate IdOrdered(es: seq<Entry>) {
    forall i, j :: 0 <= i < j < |es| && es[i].wallet == es[j].wallet ==> es[i].id < es[j].id
  }

  predicate LedgerInv(st: Store) {
    && WalletsOk(st) && OwnersOk(st)
    && TxnsOk(st) && EntriesOk(st) && UniqueKeys(st.txns)
    && Journal(st.entries, st.txns)
    && NoDrift(st) && Chained(st.entries) && IdOrdered(st.entries)
  }

  predicate PlanOk(st: Store, p: Plan) {
    && p.src in st.wallets && p.dst in st.wallets && p.src != p.dst && p.dst != MINT
    && p.initiator in st.walletOf
    && (p.kind == SignupGrant ==> p.src == MINT && p.dst == st.walletOf[p.initiator] && p.key == None)
    && (p.kind != SignupGrant ==> p.src == st.walletOf[p.initiator])
  }

  /** Ids that the sequence and the row-id generator can hand out for this plan. */
  predicate FreshFor(st: Store, p: Plan, x: Fresh) {
    && (forall k :: 0 <= k < |st.txns| ==> st.txns[k].id != x.txn)
    && x.debit < x.credit
    && (forall k :: 0 <= k < |st.entries| && st.entries[k].wallet in {p.src, p.dst} ==> st.entries[k].id < x.debit)
  }

  /** The checks made before and by the writes of one event, all passed. */
  predicate Postable(st: Store, p: Plan) {
    && PlanOk(st, p) && 0 < p.amount
    && (p.kind != SignupGrant ==> p.amount <= st.wallets[p.src].balance)
    && !IndexHit(st.txns, p.initiator, p.key)
    && FitsNumeric(st.wallets[p.src].balance - p.amount)
    && FitsNumeric(st.wallets[p.dst].balance + p.amount)
  }

  lemma PostKeepsNoDrift(st: Store, p: Plan, x: Fresh)
    requires NoDrift(st) && p.src in st.wallets && p.dst in st.wallets && p.src != p.dst
    ensures NoDrift(Post(st, p, x))
  {
    var st' := Post(st, p, x);
    var d, c := DebitRow(p, x, st.wallets[p.src].balance), CreditRow(p, x, st.wallets[p.dst].balance);
    forall w <- st'.wallets ensures st'.wallets[w].balance == Sum(st'.entries, OfWallet(w)) {
      SumAppend2(st.entries, d, c, OfWallet(w));
    }
  }

  lemma ChainedAppend(es: seq<Entry>, e: Entry)
    requires Chained(es) && e.balanceAfter == Sum(es, OfWallet(e.wallet)) + e.amount
    ensures Chained(es + [e])
  {
    assert (es + [e])[..|es|] == es;
    SumAppend(es, e, OfWallet(e.wallet));
  }

  lemma PostKeepsChain(st: Store, p: Plan, x: Fresh)
    requires NoDrift(st) && Chained(st.entries) && p.src in st.wallets && p.dst in st.wallets && p.src != p.dst
    ensures Chained(Post(st, p, x).entries)
  {
    var d, c := DebitRow(p, x, st.wallets[p.src].balance), CreditRow(p, x, st.wallets[p.dst].balance);
    ChainedAppend(st.entries, d);
    SumAppend(st.entries, d, OfWallet(p.dst));
    ChainedAppend(st.entries + [d], c);
    assert Post(st, p, x).entries == (st.entries + [d]) + [c];
  }

  lemma PostKeepsJournal(st: Store, p: Plan, x: Fresh)
    requires Journal(st.entries, st.txns) && p.src in st.wallets && p.dst in st.wallets
    ensures Journal(Post(st, p, x).entries, Post(st, p, x).txns)
  {
    var st' := Post(st, p, x);
    assert st'.entries[..|st'.entries| - 2] == st.entries;
    assert st'.txns[..|st'.txns| - 1] == st.txns;
  }

  lemma PostKeepsRows(st: Store, p: Plan, x: Fresh)
    requires TxnsOk(st) && EntriesOk(st) && WalletsOk(st) && Postable(st, p)
    ensures TxnsOk(Post(st, p, x)) && EntriesOk(Post(st, p, x))
  {
    var st' := Post(st, p, x);
    forall k | 0 <= k < |st'.txns| ensures TxnOk(st', st'.txns[k]) {
      if k < |st.txns| {
        assert TxnOk(st, st.txns[k]);
      }
    }
  }

  lemma PostKeepsUnique(st: Store, p: Plan, x: Fresh)
    requires UniqueKeys(st.txns) && IdOrdered(st.entries) && Postable(st, p) && FreshFor(st, p, x)
    ensures UniqueKeys(Post(st, p, x).txns) && IdOrdered(Post(st, p, x).entries)
  {
  }

  lemma PostKeepsWallets(st: Store, p: Plan, x: Fresh)
    requires WalletsOk(st) && OwnersOk(st) && Postable(st, p)
    ensures WalletsOk(Post(st, p, x)) && OwnersOk(Post(st, p, x))
  {
    var st' := Post(st, p, x);
    assert st'.wallets.Keys == st.wallets.Keys;
    assert forall w <- st.wallets :: st'.wallets[w].kind == st.wallets[w].kind;
  }

  /** One posted event keeps every ledger invariant. */
  lemma PostKeepsLedger(st: Store, p: Plan, x: Fresh)
    requires LedgerInv(st) && Postable(st, p) && FreshFor(st, p, x)
    ensures LedgerInv(Post(st, p, x))
  {
    PostKeepsWallets(st, p, x);
    PostKeepsNoDrift(st, p, x);
    PostKeepsChain(st, p, x);
    PostKeepsJournal(st, p, x);
    PostKeepsRows(st, p, x);
    PostKeepsUnique(st, p, x);
  }

  lemma AccountKeepsTxns(st: Store, a: Account)
    requires TxnsOk(st) && a.user !in st.walletOf && a.wallet !in st.wallets
    ensures TxnsOk(AddAccount(st, a))
  {
    var st' := AddAccount(st, a);
    forall k | 0 <= k < |st'.txns| ensures TxnOk(st', st'.txns[k]) {
      assert TxnOk(st, st.txns[k]);
    }
  }

  lemma AccountKeepsSums(st: Store, a: Account)
    requires EntriesOk(st) && NoDrift(st) && a.wallet !in st.wallets
    ensures EntriesOk(AddAccount(st, a)) && NoDrift(AddAccount(st, a))
  {
    SumUntouched(st.entries, OfWallet(a.wallet));
  }

  lemma AccountKeepsWallets(st: Store, a: Account)
    requires WalletsOk(st) && OwnersOk(st) && a.user !in st.walletOf && a.wallet !in st.wallets
    ensures WalletsOk(AddAccount(st, a)) && OwnersOk(AddAccount(st, a))
  {
  }

  /** A new user with an empty wallet keeps them too. */
  lemma AccountKeepsLedger(st: Store, a: Account)
    requires LedgerInv(st) && a.user !in st.walletOf && a.wallet !in st.wallets
    ensures LedgerInv(AddAccount(st, a))
  {
    AccountKeepsWallets(st, a);
    AccountKeepsTxns(st, a);
    AccountKeepsSums(st, a);
  }

  // --- the four reconciliation invariants ----------------------------------

  ghost predicate Reconciled(st: Store) {
    && Sum(st.entries, All) == 0
    && (forall t: TxnId :: Sum(st.entries, OfTxn(t)) == 0)
    && NoDrift(st)
    && (forall w <- st.wallets :: st.wallets[w].kind == User ==> 0 <= st.wallets[w].balance)
  }

  lemma {:induction false} JournalBalances(es: seq<Entry>, txns: seq<Txn>, sel: Selection)
    requires Journal(es, txns) && !sel.OfWallet?
    ensures Sum(es, sel) == 0
  {
    if txns != [] {
      var n := |es|;
      JournalBalances(es[..n - 2], txns[..|txns| - 1], sel);
      assert es == es[..n - 2] + [es[n - 2], es[n - 1]];
      SumAppend2(es[..n - 2], es[n - 2], es[n - 1], sel);
    }
  }

  lemma LedgerReconciles(st: Store)
    requires LedgerInv(st)
    ensures Reconciled(st)
  {
    JournalBalances(st.entries, st.txns, All);
    forall t: TxnId ensures Sum(st.entries, OfTxn(t)) == 0 {
      JournalBalances(st.entries, st.txns, OfTxn(t));
    }
  }

  // --- the running-balance chain -------------------------------------------

  /** The wallet's entries, in commit order. */
  function OfOne(es: seq<Entry>, w: WalletId): (r: seq<Entry>)
    ensures forall k :: 0 <= k < |r| ==> r[k].wallet == w && r[k] in es
  {
    if es == [] then []
    else
      var rest := OfOne(es[..|es| - 1], w);
      if es[|es| - 1].wallet == w then rest + [es[|es| - 1]] else rest
  }

  predicate AscendingIds(c: seq<Entry>) {
    forall i, j :: 0 <= i < j < |c| ==> c[i].id < c[j].id
  }

  function BalanceBefore(c: seq<Entry>, k: nat): int
    requires k <= |c|
  {
    if k == 0 then 0 else c[k - 1].balanceAfter
  }

  /** Each balance_after is the one before plus the amount, starting from zero. */
  predicate Running(c: seq<Entry>) {
    forall k {:trigger BalanceBefore(c, k)} :: 0 <= k < |c| ==> c[k].balanceAfter == BalanceBefore(c, k) + c[k].amount
  }

  lemma {:induction false} OfOneOrdered(es: seq<Entry>, w: WalletId)
    requires IdOrdered(es)
    ensures AscendingIds(OfOne(es, w))
  {
    if es != [] {
      OfOneOrdered(es[..|es| - 1], w);
    }
  }

  lemma RunningAppend(c: seq<Entry>, e: Entry)
    requires Running(c) && e.balanceAfter == BalanceBefore(c, |c|) + e.amount
    ensures Running(c + [e])
  {
    var d := c + [e];
    forall k | 0 <= k < |d| ensures d[k].balanceAfter == BalanceBefore(d, k) + d[k].amount {
      if k < |c| {
        assert BalanceBefore(d, k) == BalanceBefore(c, k);
      }
    }
  }

  lemma {:induction false} OfOneChained(es: seq<Entry>, w: WalletId)
    requires Chained(es)
    ensures Running(OfOne(es, w))
    ensures Sum(es, OfWallet(w)) == BalanceBefore(OfOne(es, w), |OfOne(es, w)|)
  {
    if es != [] {
      var n := |es| - 1;
      OfOneChained(es[..n], w);
      if es[n].wallet == w {
        RunningAppend(OfOne(es[..n], w), es[n]);
      }
    }
  }

  /** Taking a wallet's entries in id order, each balance_after is the one before plus the amount,
      from zero, and the last is the wallet's balance. */
  lemma RunningBalance(st: Store, w: WalletId)
    requires LedgerInv(st) && w in st.wallets
    ensures AscendingIds(OfOne(st.entries, w)) && Running(OfOne(st.entries, w))
    ensures st.wallets[w].balance == BalanceBefore(OfOne(st.entries, w), |OfOne(st.entries, w)|)
  {
    OfOneOrdered(st.entries, w);
    OfOneChained(st.entries, w);
  }
}
