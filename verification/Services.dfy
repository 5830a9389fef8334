/** The service layer as written: one database session that stages writes, locks rows, keeps cached
    wallet balances and commits. Each operation is proved to do what the atomic one does, whatever
    the cache held beforehand. */
module Services {
  import opened Tables
  import opened Ledger
  import opened Atomic

  class Database {
    var store: Store
    var nextTxn: TxnId
    var nextEntry: EntryId

    constructor ()
      ensures store == FRESH
    {
      store, nextTxn, nextEntry := FRESH, 0, 0;
    }
  }

  predicate Ascending(ids: seq<WalletId>) {
    forall i, j :: 0 <= i < j < |ids| ==> ids[i] < ids[j]
  }

  lemma AscendingAppend(ids: seq<WalletId>, w: WalletId)
    requires Ascending(ids) && forall v <- ids :: v < w
    ensures Ascending(ids + [w])
  {
    assert forall i :: 0 <= i < |ids| ==> ids[i] in ids;
  }

  lemma AscendingPrepend(w: WalletId, ids: seq<WalletId>)
    requires Ascending(ids) && forall v <- ids :: w < v
    ensures Ascending([w] + ids)
  {
    assert forall i :: 0 <= i < |ids| ==> ids[i] in ids;
  }

  function InsertId(w: WalletId, ids: seq<WalletId>): (r: seq<WalletId>)
    requires Ascending(ids)
    ensures Ascending(r) && forall v :: v in r <==> v == w || v in ids
  {
    if ids == [] || w < ids[0] then [w] + ids
    else if w == ids[0] then ids
    else
      assert ids == [ids[0]] + ids[1..];
      var rest := InsertId(w, ids[1..]);
      AscendingPrepend(ids[0], rest);
      [ids[0]] + rest
  }

  /** sorted(set(ids)) */
  function SortedSet(ids: seq<WalletId>): (r: seq<WalletId>)
    ensures Ascending(r) && forall v :: v in r <==> v in ids
  {
    if ids == [] then [] else InsertId(ids[0], SortedSet(ids[1..]))
  }

  datatype Exception = NoRow | ValueError | NoFunds | DataError | UniqueViolation | CheckViolation | OverdraftViolation
  datatype Posting = Posted(txn: TxnId) | Raised(error: Exception)
  datatype Transferred = New(txn: TxnId) | Again(txn: TxnId) | Not(error: Error)

  /** The domain error that each database or ledger exception surfaces as. */
  function Surface(e: Exception): Error {
    match e
    case NoRow => WalletMissing
    case ValueError => BadAmount
    case NoFunds => InsufficientFunds
    case DataError => NumericOverflow
    case UniqueViolation => IntegrityFailure
    case CheckViolation => IntegrityFailure
    case OverdraftViolation => IntegrityFailure
  }

  /** A key may only replay the request it was minted for; without a winner the violation stands. */
  function Recall(found: Option<Txn>, amount: int, dst: WalletId): Transferred {
    match found
    case Some(t) => if SameRequest(t, amount, dst) then Again(t.id) else Not(KeyConflict)
    case None => Not(IntegrityFailure)
  }

  predicate Unwritten(g: Staged) {
    g.txn == None && g.balances == map[] && g.entries == []
  }

  lemma BalancesSet(wallets: map<WalletId, Wallet>, src: WalletId, dst: WalletId, s: int, d: int)
    requires src in wallets && dst in wallets && src != dst
    ensures SetBalances(wallets, map[src := s, dst := d]) ==
            wallets[src := wallets[src].(balance := s)][dst := wallets[dst].(balance := d)]
    ensures SetBalances(wallets, map[]) == wallets
  {
  }

  /** Staging a transaction row, both balances and both entries amounts to posting the event. */
  lemma StagedPost(st: Store, g: Staged, p: Plan, x: Fresh)
    requires Unwritten(g) && g.request == None && p.src != p.dst
    requires p.src in Overlay(st, g).wallets && p.dst in Overlay(st, g).wallets
    ensures var s, d := Overlay(st, g).wallets[p.src].balance, Overlay(st, g).wallets[p.dst].balance;
            Overlay(st, g.(txn := Some(TxnRow(p, x.txn, Completed)),
                           balances := map[p.src := s - p.amount, p.dst := d + p.amount],
                           entries := [DebitRow(p, x, s), CreditRow(p, x, d)]))
            == Post(Overlay(st, g), p, x)
  {
    var base := if g.account.Some? then AddAccount(st, g.account.value) else st;
    assert Overlay(st, g).wallets == SetBalances(base.wallets, map[]);
    assert base.wallets == SetBalances(base.wallets, map[]);
    var s, d := base.wallets[p.src].balance, base.wallets[p.dst].balance;
    BalancesSet(base.wallets, p.src, p.dst, s - p.amount, d + p.amount);
    assert base.entries + [] == base.entries;
  }

  /** Staging a request row shows up as exactly that row. */
  lemma StagedRequest(st: Store, g: Staged, id: RequestId, q: Request)
    requires g.request == None
    ensures Overlay(st, g.(request := Some((id, q)))) ==
            Overlay(st, g).(requests := Overlay(st, g).requests[id := q])
  {
  }

  /** A staged account shows up with an empty wallet. */
  lemma StagedAccount(st: Store, a: Account)
    ensures Overlay(st, NOTHING.(account := Some(a))) == AddAccount(st, a)
  {
    assert SetBalances(AddAccount(st, a).wallets, map[]) == AddAccount(st, a).wallets;
    assert st.entries + [] == st.entries;
  }

  /** A clean session sees exactly the committed rows. */
  lemma NothingStaged(st: Store)
    ensures Overlay(st, NOTHING) == st
  {
    assert SetBalances(st.wallets, map[]) == st.wallets;
    assert st.entries + [] == st.entries;
  }

  class Session {
    const db: Database
    const at: int
    var cache: map<WalletId, int>
    var staged: Staged
    var savepoint: Staged
    var locked: seq<WalletId>
    var lockedRow: Option<RequestId>

    constructor (db: Database, at: int, cache: map<WalletId, int>)
      ensures this.db == db && this.at == at && this.cache == cache && Clean()
    {
      this.db, this.at, this.cache := db, at, cache;
      staged, savepoint, locked, lockedRow := NOTHING, NOTHING, [], None;
    }

    predicate Clean()
      reads this
    {
      staged == NOTHING && locked == [] && lockedRow == None
    }

    /** What this session's statements see: the committed rows and its own writes. */
    function Visible(): Store
      reads this`staged, db`store
    {
      Overlay(db.store, staged)
    }

    function NextIds(): Fresh
      reads this, db
    {
      Fresh(db.nextTxn, db.nextEntry, db.nextEntry + 1, at)
    }

    /** The wallet is locked and the cached object agrees with the row. */
    predicate Current(w: WalletId)
      reads this, db
    {
      w in locked && w in Visible().wallets && w in cache && cache[w] == Visible().wallets[w].balance
    }

    // --- transaction control -------------------------------------------------

    method Commit()
      modifies this, db
      ensures db.store == old(Visible()) && Clean()
      ensures db.nextTxn == old(db.nextTxn) && db.nextEntry == old(db.nextEntry) && cache == old(cache)
    {
      db.store := Overlay(db.store, staged);
      staged, locked, lockedRow := NOTHING, [], None;
    }

    /** Rollback, and what closing the session amounts to. */
    method Rollback()
      modifies this
      ensures Clean() && cache == old(cache)
    {
      staged, locked, lockedRow := NOTHING, [], None;
    }

    method BeginNested()
      modifies this`savepoint
      ensures savepoint == staged
    {
      savepoint := staged;
    }

    /** Back to the savepoint; the wallet locks taken since are released. */
    method RollbackNested()
      modifies this`staged, this`locked
      ensures staged == old(savepoint) && locked == []
    {
      staged, locked := savepoint, [];
    }

    // --- ledger_service ------------------------------------------------------

    /** One row lock at a time, in the given order, each refreshing the cached balance. */
    method AcquireInOrder(order: seq<WalletId>, rows: map<WalletId, Wallet>)
      returns (found: bool, ghost taken: seq<WalletId>)
      requires Ascending(order)
      modifies this`cache, this`locked
      ensures found <==> forall w <- order :: w in rows
      ensures locked == old(locked) + taken && Ascending(taken)
      ensures forall w :: w in taken <==> w in order && w in rows
      ensures forall w <- taken :: w in cache && cache[w] == rows[w].balance
      ensures forall w :: w !in order && w in old(cache) ==> w in cache && cache[w] == old(cache)[w]
    {
      found, taken := true, [];
      for k := 0 to |order|
        invariant locked == old(locked) + taken && Ascending(taken)
        invariant forall w :: w in taken <==> w in order[..k] && w in rows
        invariant forall w <- taken :: w in cache && cache[w] == rows[w].balance
        invariant found <==> forall w <- order[..k] :: w in rows
        invariant forall w :: w !in order && w in old(cache) ==> w in cache && cache[w] == old(cache)[w]
      {
        var w := order[k];
        assert forall v :: v in order[..k + 1] <==> v in order[..k] || v == w;
        assert forall v <- taken :: v in order[..k] && v < w;
        if w in rows {
          AscendingAppend(taken, w);
          locked, taken := locked + [w], taken + [w];
          cache := cache[w := rows[w].balance];
        } else {
          found := false;
        }
      }
      assert order[..|order|] == order;
    }

    /** Rows that exist are locked in ascending id order and their cached balances refreshed. */
    method LockWallets(ids: seq<WalletId>) returns (found: bool)
      modifies this`cache, this`locked
      ensures found <==> forall w <- ids :: w in Visible().wallets
      ensures old(locked) <= locked && Ascending(locked[|old(locked)|..])
      ensures forall w :: w in locked[|old(locked)|..] <==> w in ids && w in Visible().wallets
      ensures forall w <- ids :: w in Visible().wallets ==> Current(w)
      ensures forall w :: w !in ids && w in old(cache) ==> w in cache && cache[w] == old(cache)[w]
    {
      ghost var taken;
      found, taken := AcquireInOrder(SortedSet(ids), Visible().wallets);
      assert locked[|old(locked)|..] == taken;
    }

    /** The INSERT of the transactions row: column type, CHECK, unique index. */
    method InsertTransaction(txns: seq<Txn>, p: Plan, id: TxnId) returns (e: Option<Exception>)
      modifies this`staged
      ensures e == if !FitsNumeric(p.amount) then Some(DataError)
                   else if p.src == p.dst then Some(CheckViolation)
                   else if IndexHit(txns, p.initiator, p.key) then Some(UniqueViolation) else None
      ensures staged == if e.None? then old(staged).(txn := Some(TxnRow(p, id, Processing))) else old(staged)
    {
      if !FitsNumeric(p.amount) {
        return Some(DataError);
      }
      if p.src == p.dst {
        return Some(CheckViolation);
      }
      if IndexHit(txns, p.initiator, p.key) {
        return Some(UniqueViolation);
      }
      staged := staged.(txn := Some(TxnRow(p, id, Processing)));
      return None;
    }

    /** The cached wallets change first, so that balance_after is right; then the UPDATE is checked. */
    method UpdateBalances(p: Plan, kind: WalletKind) returns (e: Option<Exception>)
      requires p.src in cache && p.dst in cache && p.src != p.dst
      modifies this`cache, this`staged
      ensures var s, d := old(cache[p.src]) - p.amount, old(cache[p.dst]) + p.amount;
              && p.src in cache && p.dst in cache && cache[p.src] == s && cache[p.dst] == d
              && e == (if !FitsNumeric(s) || !FitsNumeric(d) then Some(DataError)
                       else if kind == User && s < 0 then Some(OverdraftViolation) else None)
              && staged == if e.None? then old(staged).(balances := map[p.src := s, p.dst := d]) else old(staged)
    {
      cache := cache[p.src := cache[p.src] - p.amount];
      cache := cache[p.dst := cache[p.dst] + p.amount];
      if !FitsNumeric(cache[p.src]) || !FitsNumeric(cache[p.dst]) {
        return Some(DataError);
      }
      if kind == User && cache[p.src] < 0 {
        return Some(OverdraftViolation);
      }
      staged := staged.(balances := map[p.src := cache[p.src], p.dst := cache[p.dst]]);
      return None;
    }

    method AppendEntries(p: Plan, x: Fresh)
      requires p.src in cache && p.dst in cache && staged.entries == []
      modifies this`staged, db`nextEntry
      ensures db.nextEntry == old(db.nextEntry) + 2
      ensures staged == old(staged).(txn := Some(TxnRow(p, x.txn, Completed)),
                entries := [DebitRow(p, x, cache[p.src] + p.amount), CreditRow(p, x, cache[p.dst] - p.amount)])
    {
      staged := staged.(entries := staged.entries + [Entry(x.debit, x.txn, p.src, -p.amount, cache[p.src], x.at)]);
      staged := staged.(entries := staged.entries + [Entry(x.credit, x.txn, p.dst, p.amount, cache[p.dst], x.at)]);
      staged := staged.(txn := Some(TxnRow(p, x.txn, Completed)));
      db.nextEntry := db.nextEntry + 2;
    }

    /** The three writes of one event, each with the refusals of the database. */
    method WriteEvent(txns: seq<Txn>, kind: WalletKind, p: Plan, x: Fresh) returns (r: Posting)
      requires p.src in cache && p.dst in cache && Unwritten(staged)
      modifies this`cache, this`staged, db`nextEntry
      ensures var s, d := old(cache[p.src]), old(cache[p.dst]);
              && r == (if !FitsNumeric(p.amount) then Raised(DataError)
                       else if p.src == p.dst then Raised(CheckViolation)
                       else if IndexHit(txns, p.initiator, p.key) then Raised(UniqueViolation)
                       else if !FitsNumeric(s - p.amount) || !FitsNumeric(d + p.amount) then Raised(DataError)
                       else if kind == User && s - p.amount < 0 then Raised(OverdraftViolation)
                       else Posted(x.txn))
              && (r.Posted? ==> staged == old(staged).(txn := Some(TxnRow(p, x.txn, Completed)),
                                                       balances := map[p.src := s - p.amount, p.dst := d + p.amount],
                                                       entries := [DebitRow(p, x, s), CreditRow(p, x, d)]))
      ensures staged.account == old(staged.account) && staged.request == old(staged.request)
    {
      var refused := InsertTransaction(txns, p, x.txn);
      if refused.Some? {
        return Raised(refused.value);
      }
      refused := UpdateBalances(p, kind);
      if refused.Some? {
        return Raised(refused.value);
      }
      AppendEntries(p, x);
      return Posted(x.txn);
    }

    /** Appends one balanced event to the staged writes; the wallets must be locked and refreshed. */
    method PostDoubleEntry(p: Plan, overdraft: bool) returns (r: Posting)
      requires Current(p.src) && Current(p.dst)
      requires Unwritten(staged) && staged.request == None
      modifies this`cache, this`staged, db`nextTxn, db`nextEntry
      ensures match PostChecked(old(Visible()), p, overdraft, old(NextIds()))
              case Moved(st) => r == Posted(old(db.nextTxn)) && Visible() == st
              case Replay(_) => false
              case Refused(e) => r.Raised? && Surface(r.error) == e
      ensures r == Raised(UniqueViolation) ==> IndexHit(old(Visible().txns), p.initiator, p.key)
      ensures r == Raised(OverdraftViolation) ==> overdraft
      ensures staged.account == old(staged.account) && staged.request == None
    {
      var seen, x, g := Visible(), NextIds(), staged;
      if p.amount <= 0 {
        return Raised(ValueError);
      }
      if !overdraft && cache[p.src] < p.amount {
        return Raised(NoFunds);
      }
      db.nextTxn := db.nextTxn + 1;
      r := WriteEvent(seen.txns, seen.wallets[p.src].kind, p, x);
      if r.Posted? {
        StagedPost(db.store, g, p, x);
      }
    }

    // --- transfer_service ----------------------------------------------------

    /** The replay lookup over the visible rows, newest first. */
    method LookUpReplay(initiator: UserId, key: Option<Key>) returns (r: Option<Txn>)
      ensures r == FindReplay(Visible().txns, initiator, key)
    {
      if key == None || key == Some("") {
        return None;
      }
      var txns := Visible().txns;
      var k := |txns|;
      assert txns[..k] == txns;
      while k > 0
        invariant 0 <= k <= |txns|
        invariant Latest(txns[..k], initiator, key) == Latest(txns, initiator, key)
      {
        k := k - 1;
        if Carries(txns[k], initiator, key) {
          return Some(txns[k]);
        }
        assert txns[..k + 1][..k] == txns[..k];
      }
      return None;
    }

    /** Savepoint, locks, write; a failure inside goes back to the savepoint. */
    method LockAndPost(p: Plan) returns (r: Posting)
      requires staged == NOTHING
      modifies this`cache, this`locked, this`staged, this`savepoint, db`nextTxn, db`nextEntry
      ensures p.src !in db.store.wallets || p.dst !in db.store.wallets ==> r == Raised(NoRow)
      ensures match PostChecked(db.store, p, false, old(NextIds()))
              case Moved(st) => r == Posted(old(db.nextTxn)) && Visible() == st && staged.request == None
              case Replay(_) => false
              case Refused(e) => r.Raised? && Surface(r.error) == e && staged == NOTHING
      ensures r == Raised(UniqueViolation) ==> IndexHit(db.store.txns, p.initiator, p.key)
      ensures r != Raised(OverdraftViolation)
    {
      NothingStaged(db.store);
      BeginNested();
      var found := LockWallets([p.src, p.dst]);
      assert Visible() == db.store && NextIds() == old(NextIds());
      if !found {
        RollbackNested();
        assert PostChecked(db.store, p, false, old(NextIds())) == Refused(WalletMissing);
        return Raised(NoRow);
      }
      assert p.src in [p.src, p.dst] && p.dst in [p.src, p.dst];
      assert Current(p.src) && Current(p.dst);
      r := PostDoubleEntry(p, false);
      if r.Raised? {
        RollbackNested();
      }
    }

    method ExecuteTransfer(o: Order, commit: bool) returns (r: Transferred)
      requires staged == NOTHING
      modifies this, db
      ensures match Move(old(db.store), o, old(NextIds()))
              case Moved(st) =>
                && r == New(old(db.nextTxn))
                && if commit then db.store == st && Clean()
                   else db.store == old(db.store) && Visible() == st && staged.request == None
                        && lockedRow == old(lockedRow)
              case Replay(t) => r == Again(t) && db.store == old(db.store) && staged == NOTHING
                                && lockedRow == old(lockedRow)
              case Refused(e) => r == Not(e) && db.store == old(db.store) && staged == NOTHING
    {
      NothingStaged(db.store);
      if !Known(db.store, o) {
        return Not(WalletMissing);
      }
      if o.initiator == o.to {
        return Not(SelfTransfer);
      }
      var p := PlanOf(db.store, o);
      var replay := LookUpReplay(o.initiator, o.key);
      if replay.Some? {
        return Recall(replay, o.amount, p.dst);
      }
      var posting := LockAndPost(p);
      if posting == Raised(NoFunds) {
        if commit {
          Commit();
          NothingStaged(db.store);
        }
        return Not(InsufficientFunds);
      }
      if posting == Raised(UniqueViolation) {
        var winner := LookUpReplay(o.initiator, o.key);
        return Recall(winner, o.amount, p.dst);
      }
      if posting == Raised(OverdraftViolation) {
        return Not(InsufficientFunds);
      }
      if posting.Raised? {
        return Not(Surface(posting.error));
      }
      if commit {
        Commit();
      }
      return New(posting.txn);
    }

    /** Resolve the recipient by phone, compare the PIN, then move. */
    method SendMoney(sender: UserId, phone: string, active: bool, amount: int, pinOk: bool, key: Option<Key>)
      returns (r: Outcome)
      requires Clean()
      modifies this, db
      ensures phone !in old(db.store.phones) ==> r == Failed(RecipientNotFound) && db.store == old(db.store)
      ensures phone in old(db.store.phones) ==>
                (db.store, r) == Run(old(db.store), Send(sender, old(db.store.phones[phone]), amount, key),
                                     Inputs(at, pinOk, active, old(NextIds())))
    {
      if phone !in db.store.phones || !active {
        return Failed(RecipientNotFound);
      }
      var to := db.store.phones[phone];
      if to == sender {
        return Failed(SelfTransfer);
      }
      NothingStaged(db.store);
      if !pinOk {
        Commit();
        return Failed(InvalidPin);
      }
      var t := ExecuteTransfer(SendOrder(Send(sender, to, amount, key)), true);
      match t
      case New(id) => return Sent(id);
      case Again(id) => return Replayed(id);
      case Not(e) => return Failed(e);
    }

    // --- auth_service ----------------------------------------------------------

    /** User, wallet and funded signup grant in one transaction. */
    method Register(a: Account, grant: int) returns (r: Outcome)
      requires Clean()
      modifies this, db
      ensures (db.store, r) == Run(old(db.store), Call.Register(a, grant), Inputs(at, true, true, old(NextIds())))
    {
      if a.phone in db.store.phones {
        return Failed(PhoneTaken);
      }
      staged := staged.(account := Some(a));
      StagedAccount(db.store, a);
      var found := LockWallets([MINT, a.wallet]);
      if !found {
        Rollback();
        return Failed(WalletMissing);
      }
      var posting := PostDoubleEntry(GrantPlan(a, grant), true);
      if posting.Raised? {
        Rollback();
        return Failed(Surface(posting.error));
      }
      Commit();
      return Registered(posting.txn);
    }

    // --- request_service -------------------------------------------------------

    /** FOR UPDATE, scoped to someone who is party to the request. */
    method LockRequest(id: RequestId, viewer: UserId) returns (q: Option<Request>)
      modifies this`lockedRow
      ensures var rows := Visible().requests;
              if id in rows && viewer in {rows[id].requester, rows[id].payer}
              then q == Some(rows[id]) && lockedRow == Some(id) else q == None && lockedRow == old(lockedRow)
    {
      var rows := Visible().requests;
      if id !in rows || (rows[id].requester != viewer && rows[id].payer != viewer) {
        return None;
      }
      lockedRow := Some(id);
      return Some(rows[id]);
    }

    /** Resolve the payer by phone, then insert the pending request. */
    method CreateRequest(id: RequestId, requester: UserId, phone: string, active: bool, amount: int)
      returns (r: Outcome)
      requires Clean()
      modifies this, db
      ensures phone !in old(db.store.phones) ==> r == Failed(RecipientNotFound) && db.store == old(db.store)
      ensures phone in old(db.store.phones) && old(db.store.phones[phone]) in old(db.store.walletOf) ==>
                (db.store, r) == Run(old(db.store), Ask(id, requester, old(db.store.phones[phone]), amount),
                                     Inputs(at, true, active, old(NextIds())))
    {
      NothingStaged(db.store);
      if phone !in db.store.phones || !active {
        return Failed(RecipientNotFound);
      }
      var payer := db.store.phones[phone];
      if payer == requester {
        return Failed(SelfRequest);
      }
      if !FitsNumeric(amount) {
        return Failed(NumericOverflow);
      }
      if requester !in db.store.walletOf || amount <= 0 || id in db.store.requests {
        return Failed(IntegrityFailure);
      }
      var row := AskRow(Ask(id, requester, payer, amount), at);
      staged := staged.(request := Some((id, row)));
      StagedRequest(db.store, NOTHING, id, row);
      Commit();
      return Asked;
    }

    /** Pay a request: the transfer and the status change commit together or not at all. */
    method ApproveRequest(payer: UserId, id: RequestId, now: int, pinOk: bool, active: bool) returns (r: Outcome)
      requires Clean()
      modifies this, db
      ensures (db.store, r) == Run(old(db.store), Approve(payer, id), Inputs(now, pinOk, active, old(NextIds())))
    {
      NothingStaged(db.store);
      var q := LockRequest(id, payer);
      if q == None || q.value.payer != payer {
        return Failed(RequestNotFound);
      }
      var refusal := Verdict(q.value, payer, true, now);
      if refusal.Some? {
        return Failed(refusal.value);
      }
      if !pinOk {
        Commit();
        return Failed(InvalidPin);
      }
      if !active {
        return Failed(RecipientNotFound);
      }
      var t := ExecuteTransfer(SettlementOrder(id, q.value), false);
      if t.Not? {
        return Failed(t.error);
      }
      var paid := q.value.(status := Approved, link := Some(t.txn));
      NothingStaged(db.store);
      StagedRequest(db.store, staged, id, paid);
      staged := staged.(request := Some((id, paid)));
      Commit();
      return Settled(t.txn);
    }

    /** Decline by the payer or cancel by the requester. */
    method TurnRequest(actor: UserId, id: RequestId, mustPay: bool, now: int) returns (r: Outcome)
      requires Clean()
      modifies this, db
      ensures (db.store, r) == RunTurn(old(db.store), actor, id, mustPay, Inputs(now, true, true, old(NextIds())))
    {
      NothingStaged(db.store);
      var q := LockRequest(id, actor);
      if q == None {
        return Failed(RequestNotFound);
      }
      var refusal := Verdict(q.value, actor, mustPay, now);
      if refusal.Some? {
        return Failed(refusal.value);
      }
      var status := if mustPay then Declined else Cancelled;
      StagedRequest(db.store, NOTHING, id, q.value.(status := status));
      staged := staged.(request := Some((id, q.value.(status := status))));
      Commit();
      return Turned(status);
    }
  }
}
