/** Statement paging over the reachable states of the interleaved system. */
module StatementRuns {
  import opened Tables
  import opened Ledger
  import opened Atomic
  import opened Interleaving
  import opened Reachability
  import opened Guarantees
  import opened Statement
  import Calendar

  lemma EntriesGrow(s: State, e: Event)
    requires Legal(s, e)
    ensures s.store.entries <= Do(s, e, true).store.entries
  {
  }

  lemma {:induction false} LedgerGrows(es: seq<Event>, k: nat)
    requires Exec(es, true).Some? && k <= |es| && Exec(es[..k], true).Some?
    ensures Exec(es[..k], true).value.store.entries <= Exec(es, true).value.store.entries
    decreases |es|
  {
    if k < |es| {
      assert es[..|es| - 1][..k] == es[..k];
      LedgerGrows(es[..|es| - 1], k);
      EntriesGrow(Exec(es[..|es| - 1], true).value, es[|es| - 1]);
    } else {
      assert es[..k] == es;
    }
  }

  lemma {:induction false} OfOneHas(es: seq<Entry>, w: WalletId, x: Entry)
    ensures x in OfOne(es, w) <==> x in es && x.wallet == w
  {
    if es != [] {
      OfOneHas(es[..|es| - 1], w, x);
      assert es == es[..|es| - 1] + [es[|es| - 1]];
    }
  }

  /** What the pages of wallet w are read from when page j is fetched after the first ks[j] events. */
  function Snapshots(es: seq<Event>, ks: seq<nat>, w: WalletId): seq<seq<Entry>>
    requires forall j :: 0 <= j < |ks| ==> ks[j] <= |es| && Exec(es[..ks[j]], true).Some?
  {
    seq(|ks|, j requires 0 <= j < |ks| => OfOne(Exec(es[..ks[j]], true).value.store.entries, w))
  }

  lemma SnapshotsGrow(es: seq<Event>, ks: seq<nat>, w: WalletId)
    requires Exec(es, true).Some?
    requires forall j :: 0 <= j < |ks| ==> ks[j] <= |es| && Exec(es[..ks[j]], true).Some?
    requires forall i, j :: 0 <= i <= j < |ks| ==> ks[i] <= ks[j]
    ensures Growing(Snapshots(es, ks, w))
  {
    var ledgers := Snapshots(es, ks, w);
    forall j | 0 <= j < |ledgers| ensures OneRowPerId(ledgers[j]) {
      var st := Exec(es[..ks[j]], true).value.store;
      ReachableInv(es[..ks[j]]);
      OfOneOrdered(st.entries, w);
    }
    forall i, j, x | 0 <= i <= j < |ledgers| && x in ledgers[i] ensures x in ledgers[j] {
      var a, b := Exec(es[..ks[i]], true).value.store.entries, Exec(es[..ks[j]], true).value.store.entries;
      assert es[..ks[j]][..ks[i]] == es[..ks[i]];
      LedgerGrows(es[..ks[j]], ks[i]);
      OfOneHas(a, w, x);
      OfOneHas(b, w, x);
    }
  }

  /** Paging a statement while the system runs: rows come in strictly decreasing (created_at, id),
      none twice, only committed ones, and every entry of the wallet that was committed before the
      first fetch has been shown once the walk ends. */
  lemma PagingOverRuns(es: seq<Event>, ks: seq<nat>, w: WalletId, limit: int)
    requires Exec(es, true).Some? && ks != []
    requires forall j :: 0 <= j < |ks| ==> ks[j] <= |es| && Exec(es[..ks[j]], true).Some?
    requires forall i, j :: 0 <= i <= j < |ks| ==> ks[i] <= ks[j]
    ensures var ledgers, size := Snapshots(es, ks, w), Clamp(limit);
            var shown := Walk(ledgers, None, size);
            && Descending(shown)
            && (forall i, j :: 0 <= i < j < |shown| ==> shown[i] != shown[j])
            && (forall x <- shown :: x in Exec(es, true).value.store.entries && x.wallet == w)
            && (Finished(ledgers, None, size) ==>
                  forall x <- Exec(es[..ks[0]], true).value.store.entries :: x.wallet == w ==> x in shown)
  {
    var ledgers, size := Snapshots(es, ks, w), Clamp(limit);
    SnapshotsGrow(es, ks, w);
    WalkDescends(ledgers, None, size);
    NoRowTwice(Walk(ledgers, None, size));
    forall x <- Walk(ledgers, None, size) ensures x in Exec(es, true).value.store.entries && x.wallet == w {
      WalkShowsOnly(ledgers, None, size, x);
      LedgerGrows(es, ks[|ks| - 1]);
      OfOneHas(Exec(es[..ks[|ks| - 1]], true).value.store.entries, w, x);
    }
    if Finished(ledgers, None, size) {
      forall x <- Exec(es[..ks[0]], true).value.store.entries | x.wallet == w ensures x in Walk(ledgers, None, size) {
        OfOneHas(Exec(es[..ks[0]], true).value.store.entries, w, x);
        WalkShowsAll(ledgers, None, size, x);
      }
    }
  }

  /** The same with the cursor passed as text, as a client does: whatever the driver's rendering of the
      times, the walk shows the same rows and ends at the same fetch. */
  lemma TextPagingOverRuns(es: seq<Event>, ks: seq<nat>, w: WalletId, limit: int, d: Driver)
    requires Exec(es, true).Some? && ks != [] && Renders(d, Exec(es, true).value.store.entries)
    requires forall j :: 0 <= j < |ks| ==> ks[j] <= |es| && Exec(es[..ks[j]], true).Some?
    requires forall i, j :: 0 <= i <= j < |ks| ==> ks[i] <= ks[j]
    ensures var ledgers, size := Snapshots(es, ks, w), Clamp(limit);
            && TextWalk(ledgers, "", size, d) == Walk(ledgers, None, size)
            && (TextFinished(ledgers, "", size, d) <==> Finished(ledgers, None, size))
  {
    var ledgers := Snapshots(es, ks, w);
    forall j | 0 <= j < |ledgers| ensures Renders(d, ledgers[j]) {
      LedgerGrows(es, ks[j]);
      forall e <- ledgers[j] ensures e in Exec(es, true).value.store.entries {
        OfOneHas(Exec(es[..ks[j]], true).value.store.entries, w, e);
      }
    }
    FirstPage(d.zone);
    TextWalkIsWalk(ledgers, "", Clamp(limit), d);
  }

  /** In particular with times rendered at one offset, whichever it is. */
  lemma OffsetPagingOverRuns(es: seq<Event>, ks: seq<nat>, w: WalletId, limit: int, offset: int)
    requires Exec(es, true).Some? && ks != []
    requires forall e <- Exec(es, true).value.store.entries :: Calendar.Representable(e.at, offset)
    requires forall j :: 0 <= j < |ks| ==> ks[j] <= |es| && Exec(es[..ks[j]], true).Some?
    requires forall i, j :: 0 <= i <= j < |ks| ==> ks[i] <= ks[j]
    ensures var ledgers, size := Snapshots(es, ks, w), Clamp(limit);
            && TextWalk(ledgers, "", size, AtOffset(offset)) == Walk(ledgers, None, size)
            && (TextFinished(ledgers, "", size, AtOffset(offset)) <==> Finished(ledgers, None, size))
  {
    AtOffsetRenders(Exec(es, true).value.store.entries, offset);
    TextPagingOverRuns(es, ks, w, limit, AtOffset(offset));
  }

  /** In every reachable state the rows that a page joins are there: each entry's transaction, and one
      owner at most per wallet. */
  lemma PagesAlwaysRender(es: seq<Event>)
    requires Exec(es, true).Some?
    ensures OwnersOk(Exec(es, true).value.store) && Referenced(Exec(es, true).value.store)
  {
    ReachableInv(es);
    var st := Exec(es, true).value.store;
    assert LedgerInv(st);
    forall e <- st.entries ensures FindTxn(st.txns, e.txn).Some? {
      JournalKnows(st.entries, st.txns, e);
    }
  }

  // --- what a line of the statement says -----------------------------------------------

  /** Every wallet but the mint has an owner. */
  ghost predicate AllOwned(st: Store) {
    forall w <- st.wallets :: w == MINT || exists u :: Owns(st, u, w)
  }

  predicate Owns(st: Store, u: UserId, w: WalletId) {
    u in st.walletOf && st.walletOf[u] == w
  }

  lemma RunKeepsOwned(st: Store, c: Call, x: Inputs)
    requires AllOwned(st) && FreshCall(st, c)
    ensures AllOwned(Run(st, c, x).0)
  {
    var st' := Run(st, c, x).0;
    forall w <- st'.wallets | w != MINT ensures exists u :: Owns(st', u, w) {
      if w in st.wallets {
        var u :| Owns(st, u, w);
        assert Owns(st', u, w);
      } else {
        assert Owns(st', c.account.user, w);
      }
    }
  }

  lemma {:induction false} AlwaysOwned(es: seq<Event>)
    requires Exec(es, true).Some?
    ensures AllOwned(Exec(es, true).value.store)
  {
    if es != [] {
      var s, e := Exec(es[..|es| - 1], true).value, es[|es| - 1];
      AlwaysOwned(es[..|es| - 1]);
      ReachableInv(es[..|es| - 1]);
      StepRefines(s, e);
      if e.Act? && s.actors[e.actor].pc == Commit {
        CommitAtomic(s, e.actor);
        RunKeepsOwned(s.store, s.actors[e.actor].call, s.actors[e.actor].x);
      }
    }
  }

  /** In every reachable state each wallet but the mint has one owner, and the mint has none. */
  lemma OneOwnerEach(es: seq<Event>, w: WalletId)
    requires Exec(es, true).Some? && w in Exec(es, true).value.store.wallets
    ensures var st := Exec(es, true).value.store;
            if w == MINT then forall u :: !Owns(st, u, w)
            else exists u :: Owns(st, u, w) && forall v :: Owns(st, v, w) ==> v == u
  {
    var st := Exec(es, true).value.store;
    assert OwnersOk(st) by {
      ReachableInv(es);
    }
    AlwaysOwned(es);
    if w != MINT {
      var u :| Owns(st, u, w);
      assert forall v :: Owns(st, v, w) ==> v == u;
    }
  }

  /** The transaction of an entry, and which side of it the entry is. */
  lemma EntrySide(st: Store, e: Entry)
    requires TxnsOk(st) && UniqueKeys(st.txns) && Journal(st.entries, st.txns) && Referenced(st) && e in st.entries
    ensures var t := TxnOf(st, e);
            && t in st.txns && e.wallet in {t.src, t.dst}
            && e.amount == if e.wallet == t.src then -t.amount else t.amount
  {
    JournalPairs(st.entries, st.txns);
    var t := TxnOf(st, e);
    var m :| 0 <= m < |st.entries| && st.entries[m] == e;
    var k :| 0 <= k < |st.txns| && st.txns[k] == t;
    TwoEach(st.entries, st.txns, k, m);
    assert PairAt(st.entries, st.txns[k], k) && TxnOk(st, st.txns[k]);
  }

  lemma ReachableSide(es: seq<Event>, e: Entry)
    requires Exec(es, true).Some? && e in Exec(es, true).value.store.entries
    ensures var st := Exec(es, true).value.store;
            && OwnersOk(st) && Referenced(st)
            && var t := TxnOf(st, e);
               && TxnOk(st, t) && e.wallet in {t.src, t.dst}
               && e.amount == if e.wallet == t.src then -t.amount else t.amount
  {
    var st := Exec(es, true).value.store;
    PagesAlwaysRender(es);
    assert TxnsOk(st) && UniqueKeys(st.txns) && Journal(st.entries, st.txns) by {
      ReachableInv(es);
    }
    EntrySide(st, e);
    var k :| 0 <= k < |st.txns| && st.txns[k] == TxnOf(st, e);
    assert TxnOk(st, st.txns[k]);
  }

  /** In every reachable state a line of a statement reads as it should: a DEBIT is the sender's line and
      names the owner of the receiving wallet; a CREDIT is the receiver's and names the owner of the sending
      wallet; nobody is named exactly on a signup grant; and never the owner of the wallet itself. */
  lemma LineMeans(es: seq<Event>, e: Entry, party: Option<UserId>)
    requires Exec(es, true).Some? && e in Exec(es, true).value.store.entries && e.wallet != MINT
    requires var st := Exec(es, true).value.store;
             Referenced(st) && IsOwner(st, OtherSide(TxnOf(st, e), e), party)
    ensures var st := Exec(es, true).value.store;
            var t := TxnOf(st, e);
            && (DirectionOf(e.amount) == Direction.Debit <==> e.wallet == t.src)
            && (DirectionOf(e.amount) == Direction.Credit <==> e.wallet == t.dst)
            && (party == None <==> t.kind == SignupGrant)
            && (party.Some? ==> Owns(st, party.value, if e.wallet == t.src then t.dst else t.src)
                                && !Owns(st, party.value, e.wallet))
  {
    var st := Exec(es, true).value.store;
    var t := TxnOf(st, e);
    ReachableSide(es, e);
    AlwaysOwned(es);
    OtherSideIsOther(t, e);
    if t.kind == SignupGrant {
      assert OtherSide(t, e) == MINT;
    } else {
      var u :| Owns(st, u, OtherSide(t, e));
    }
  }
}
