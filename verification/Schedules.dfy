/** Schedules from the fresh database: what goes wrong without the refreshing read, retries that are
    refused although their original went through, and a request paid by a transfer under its key. */
module Schedules {
  import opened Tables
  import opened Ledger
  import opened Atomic
  import opened Interleaving
  import opened Solo

  /** Every transaction so far holds nothing. */
  predicate AllAtRest(s: State) {
    forall j :: 0 <= j < |s.actors| ==> AtRest(s.actors[j])
  }

  lemma Starting(es: seq<Event>, populate: bool, s: State, c: Call, cache: map<WalletId, int>)
    returns (es': seq<Event>, s': State)
    requires Leads(es, populate, s) && AllAtRest(s) && Legal(s, Begin(c, cache))
    ensures Leads(es', populate, s') && AllAtRest(s')
    ensures s' == s.(actors := s.actors + [Newcomer(c, cache, |s.actors|, s.clock)])
  {
    es', s' := es + [Begin(c, cache)], Do(s, Begin(c, cache), populate);
    assert es'[..|es|] == es;
  }

  /** A registration at its locks runs on to its commit. */
  lemma Granting(es: seq<Event>, populate: bool, s: State, i: nat, c: Config) returns (es': seq<Event>, s': State)
    requires At(es, populate, s, i, c) && c.a.call.Register?
    requires c.a.pc == LockLow && c.a.held == {} && c.a.heldRow == None
    requires c.a.cache == map[] && c.a.savepoint == NOTHING
    requires c.a.plan == GrantPlan(c.a.call.account, c.a.call.grant)
    requires c.a.staged == NOTHING.(account := Some(c.a.call.account))
    requires c.a.call.account.wallet !in c.st.wallets && MINT in c.st.wallets
    requires 0 < c.a.call.grant <= MAX_NUMERIC && FitsNumeric(c.st.wallets[MINT].balance - c.a.call.grant)
    ensures Leads(es', populate, s') && OthersStay(s, s', i) && i < |s'.actors|
    ensures AtRest(s'.actors[i]) && s'.actors[i].call == c.a.call
    ensures forall j :: 0 <= j < |s'.actors| && j != i ==> AtRest(s'.actors[j])
    ensures s'.store == PostFrom(AddAccount(c.st, c.a.call.account), c.a.plan, NextIds(c),
                                 c.st.wallets[MINT].balance, 0)
  {
    var es1, s1, c1 := GrantLocks(es, populate, s, i, c);
    var es2, s2, c2 := FromCheck(es1, populate, s1, i, c1, c.a.plan, c.st.wallets[MINT].balance, 0);
    es', s' := es2, s2;
  }

  lemma Registering(es: seq<Event>, populate: bool, s: State, a: Account, grant: int)
    returns (es': seq<Event>, s': State)
    requires Leads(es, populate, s) && AllAtRest(s) && Legal(s, Begin(Register(a, grant), map[]))
    requires a.phone !in s.store.phones && MINT in s.store.wallets && 0 < grant <= MAX_NUMERIC
    requires FitsNumeric(s.store.wallets[MINT].balance - grant)
    ensures Leads(es', populate, s') && AllAtRest(s') && |s'.actors| == |s.actors| + 1 && s'.clock == s.clock
    ensures forall j :: 0 <= j < |s.actors| ==> s'.actors[j] == s.actors[j]
    ensures s'.actors[|s.actors|].call == Register(a, grant)
    ensures s'.store == PostFrom(AddAccount(s.store, a), GrantPlan(a, grant),
                                 Fresh(|s.actors|, s.nextEntry, s.nextEntry + 1, s.clock),
                                 s.store.wallets[MINT].balance, 0)
  {
    var i := |s.actors|;
    var es1, s1 := Starting(es, populate, s, Register(a, grant), map[]);
    var c := Config(s1.store, s1.nextEntry, s1.actors[i]);
    var es2, s2, c2 := GrantToLocks(es1, populate, s1, i, c);
    es', s' := Granting(es2, populate, s2, i, c2);
  }

  const GRANT: int := 10_000_000
  const ALICE: Account := Account("01700000001", 1, 2)
  const BOB: Account := Account("01700000002", 2, 3)

  /** Two registered users, one grant each, nothing else. */
  predicate TwoFunded(st: Store) {
    && st.walletOf == map[1 := 2, 2 := 3] && st.requests == map[]
    && st.wallets == map[1 := Wallet(System, -2 * GRANT), 2 := Wallet(User, GRANT), 3 := Wallet(User, GRANT)]
    && Sum(st.entries, OfWallet(2)) == GRANT
    && (forall k :: 0 <= k < |st.txns| ==> st.txns[k].key == None)
    && (forall k :: 0 <= k < |st.entries| ==> st.entries[k].at == 0)
  }

  lemma PostFromSum(st: Store, p: Plan, x: Fresh, b: int, d: int, w: WalletId)
    requires p.src in st.wallets && p.dst in st.wallets
    ensures Sum(PostFrom(st, p, x, b, d).entries, OfWallet(w)) ==
            Sum(st.entries, OfWallet(w)) - (if w == p.src then p.amount else 0) + (if w == p.dst then p.amount else 0)
  {
    SumAppend2(st.entries, DebitRow(p, x, b), CreditRow(p, x, d), OfWallet(w));
  }

  /** One registered user, one grant, nothing else. */
  predicate OneFunded(st: Store) {
    && st.phones == map["01700000001" := 1] && st.walletOf == map[1 := 2] && st.requests == map[]
    && st.wallets == map[1 := Wallet(System, -GRANT), 2 := Wallet(User, GRANT)]
    && Sum(st.entries, OfWallet(2)) == GRANT
    && (forall k :: 0 <= k < |st.txns| ==> st.txns[k].key == None)
    && (forall k :: 0 <= k < |st.entries| ==> st.entries[k].at == 0)
  }

  lemma OneUser(populate: bool) returns (es: seq<Event>, s: State)
    ensures Leads(es, populate, s) && AllAtRest(s) && OneFunded(s.store) && s.clock == 0
    ensures |s.actors| == 1 && s.actors[0].call == Register(ALICE, GRANT)
  {
    assert Leads([], populate, START);
    es, s := Registering([], populate, START, ALICE, GRANT);
    PostFromSum(AddAccount(FRESH, ALICE), GrantPlan(ALICE, GRANT), Fresh(0, 0, 1, 0), 0, 0, 2);
  }

  lemma SecondGrant(st: Store, x: Fresh)
    requires OneFunded(st) && x.at == 0
    ensures TwoFunded(PostFrom(AddAccount(st, BOB), GrantPlan(BOB, GRANT), x, -GRANT, 0))
  {
    PostFromSum(AddAccount(st, BOB), GrantPlan(BOB, GRANT), x, -GRANT, 0, 2);
  }

  lemma TwoUsers(populate: bool) returns (es: seq<Event>, s: State)
    ensures Leads(es, populate, s) && AllAtRest(s) && TwoFunded(s.store) && s.clock == 0
    ensures forall j :: 0 <= j < |s.actors| ==> s.actors[j].call.Register?
  {
    var es1, s1 := OneUser(populate);
    es, s := Registering(es1, populate, s1, BOB, GRANT);
    SecondGrant(s1.store, Fresh(1, s1.nextEntry, s1.nextEntry + 1, 0));
  }

  lemma GivingPin(es: seq<Event>, populate: bool, s: State, i: nat) returns (es': seq<Event>, s': State)
    requires Leads(es, populate, s) && AllAtRest(s) && i < |s.actors| && s.actors[i].pc == Pin && s.actors[i].call.Send?
    requires s.actors[i].call.sender != s.actors[i].call.to
    ensures Leads(es', populate, s') && AllAtRest(s') && OthersStay(s, s', i) && s'.store == s.store
    ensures s'.actors[i] == s.actors[i].(pc := Lookup, x := s.actors[i].x.(pinOk := true, active := true))
  {
    var c;
    es', s', c := OneStep(es, populate, s, i, Config(s.store, s.nextEntry, s.actors[i]));
  }

  /** A send that has begun and been let through to its lookup. */
  lemma Entering(es: seq<Event>, populate: bool, s: State, c: Call, cache: map<WalletId, int>)
    returns (es': seq<Event>, s': State)
    requires Leads(es, populate, s) && AllAtRest(s) && c.Send? && c.sender != c.to
    ensures Leads(es', populate, s') && AllAtRest(s') && s'.store == s.store && s'.clock == s.clock
    ensures |s'.actors| == |s.actors| + 1 && forall j :: 0 <= j < |s.actors| ==> s'.actors[j] == s.actors[j]
    ensures var a := s'.actors[|s.actors|];
            && a.call == c && a.pc == Lookup && a.savepoint == NOTHING && a.cache == cache
            && a.x.ids.txn == |s.actors| && a.x.ids.at == s.clock
  {
    var es1, s1 := Starting(es, populate, s, c, cache);
    es', s' := GivingPin(es1, populate, s1, |s.actors|);
  }

  /** A transfer that runs undisturbed from its lookup to its commit. */
  lemma Sending(es: seq<Event>, populate: bool, s: State, i: nat, b: int, d: int) returns (es': seq<Event>, s': State)
    requires Leads(es, populate, s) && AllAtRest(s) && i < |s.actors|
    requires var a := s.actors[i];
             && a.call.Send? && a.pc == Lookup && a.savepoint == NOTHING && CanSend(s.store, SendOrder(a.call))
             && var p := PlanOf(s.store, SendOrder(a.call));
                && 0 < p.amount <= b <= MAX_NUMERIC && 0 <= d <= MAX_NUMERIC - p.amount
                && b == ReadBalance(s.store, a, p.src, populate) && d == ReadBalance(s.store, a, p.dst, populate)
    ensures Leads(es', populate, s') && AllAtRest(s') && OthersStay(s, s', i)
    ensures s'.actors[i].pc.Done? && s'.actors[i].pc.outcome.Sent? && s'.actors[i].call == s.actors[i].call
    ensures var p := PlanOf(s.store, SendOrder(s.actors[i].call));
            var ids := s.actors[i].x.ids;
            s'.store == PostFrom(s.store, p, Fresh(ids.txn, s.nextEntry, s.nextEntry + 1, ids.at), b, d)
  {
    var c := Config(s.store, s.nextEntry, s.actors[i]);
    var p := PlanOf(s.store, SendOrder(c.a.call));
    var es1, s1, c1 := ToCheck(es, populate, s, i, c);
    var es2, s2, c2 := FromCheck(es1, populate, s1, i, c1, p, b, d);
    es', s' := es2, s2;
  }

  /** Two transfers of a whole balance, both loaded by their sessions before either ran. */
  lemma TwoSenders(populate: bool, key: Option<Key>) returns (es: seq<Event>, s: State, i: nat)
    ensures Leads(es, populate, s) && AllAtRest(s) && TwoFunded(s.store) && |s.actors| == i + 2
    ensures forall j :: i <= j < i + 2 ==>
              var a := s.actors[j];
              && a.call == Send(1, 2, GRANT, key) && a.pc == Lookup && a.savepoint == NOTHING
              && a.cache == map[2 := GRANT, 3 := GRANT]
  {
    var es0, s0 := TwoUsers(populate);
    var c := Send(1, 2, GRANT, key);
    i := |s0.actors|;
    var es1, s1 := Entering(es0, populate, s0, c, map[2 := GRANT, 3 := GRANT]);
    es, s := Entering(es1, populate, s1, c, map[2 := GRANT, 3 := GRANT]);
  }

  /** Without populate_existing the locked read returns the cached balance, and a reachable state has
      drifted: one balance is spent twice and the projection no longer equals the ledger. */
  lemma DriftWithoutRefresh() returns (es: seq<Event>, s: State)
    ensures Exec(es, false) == Some(s) && !NoDrift(s.store)
  {
    var es0, s0, i := TwoSenders(false, None);
    var es1, s1 := Sending(es0, false, s0, i, GRANT, GRANT);
    es, s := Sending(es1, false, s1, i + 1, GRANT, GRANT);
    var n := |s0.store.entries|;
    assert s1.store.entries == s0.store.entries + [s1.store.entries[n], s1.store.entries[n + 1]];
    SumAppend2(s0.store.entries, s1.store.entries[n], s1.store.entries[n + 1], OfWallet(2));
    assert s.store.entries == s1.store.entries + [s.store.entries[n + 2], s.store.entries[n + 3]];
    SumAppend2(s1.store.entries, s.store.entries[n + 2], s.store.entries[n + 3], OfWallet(2));
    assert s.store.wallets[2].balance == 0;
    assert 2 in s.store.wallets;
  }

  const RETRIED: Call := Send(1, 2, GRANT, Some("k"))

  /** Original and retry have both begun; the retry has already looked for a replay, and found none. */
  lemma LookedEarly() returns (es: seq<Event>, s: State, i: nat)
    ensures Leads(es, true, s) && AllAtRest(s) && TwoFunded(s.store) && |s.actors| == i + 2
    ensures s.actors[i].call == RETRIED && s.actors[i].pc == Lookup && s.actors[i].savepoint == NOTHING
    ensures s.actors[i + 1].call == RETRIED && s.actors[i + 1].pc == LockLow && s.actors[i + 1].savepoint == NOTHING
    ensures s.actors[i + 1].plan == Plan(Transfer, 2, 3, GRANT, 1, Some("k"))
  {
    var es0, s0, first := TwoSenders(true, Some("k"));
    i := first;
    var c;
    es, s, c := OneStep(es0, true, s0, i + 1, Config(s0.store, s0.nextEntry, s0.actors[i + 1]));
  }

  lemma OriginalSent() returns (es: seq<Event>, s: State, i: nat)
    ensures Leads(es, true, s) && AllAtRest(s) && |s.actors| == i + 2
    ensures s.store.wallets == map[1 := Wallet(System, -2 * GRANT), 2 := Wallet(User, 0), 3 := Wallet(User, 2 * GRANT)]
    ensures s.actors[i].call == RETRIED && s.actors[i].pc.Done? && s.actors[i].pc.outcome.Sent?
    ensures s.actors[i + 1].call == RETRIED && s.actors[i + 1].pc == LockLow && s.actors[i + 1].savepoint == NOTHING
    ensures s.actors[i + 1].plan == Plan(Transfer, 2, 3, GRANT, 1, Some("k"))
  {
    var es0, s0, first := LookedEarly();
    i := first;
    es, s := Sending(es0, true, s0, i, GRANT, GRANT);
    assert s.actors[i].call == s0.actors[i].call;
  }

  /** The documentation promises that a retry returns the original transaction. Here the retry looks
      before the original commits, waits for the sender's wallet, and is refused for lack of funds. */
  lemma RetryRefused() returns (es: seq<Event>, s: State, i: nat)
    ensures Exec(es, true) == Some(s) && i + 1 < |s.actors|
    ensures s.actors[i].call == s.actors[i + 1].call == RETRIED
    ensures s.actors[i].pc.Done? && s.actors[i].pc.outcome.Sent?
    ensures s.actors[i + 1].pc == Done(Failed(InsufficientFunds))
  {
    var es0, s0, first := OriginalSent();
    i := first;
    es, s := RefusedAtCheck(es0, true, s0, i + 1, Config(s0.store, s0.nextEntry, s0.actors[i + 1]));
  }

  lemma RefusedAtCheck(es: seq<Event>, populate: bool, s: State, i: nat, c: Config) returns (es': seq<Event>, s': State)
    requires populate && At(es, populate, s, i, c) && c.a.pc == LockLow
    requires c.a.call.Send? && AtRest(c.a) && c.a.savepoint == NOTHING
    requires var p := c.a.plan; p.src in c.st.wallets && p.dst in c.st.wallets && p.src < p.dst && p.kind == Transfer
                                && 0 < p.amount && c.st.wallets[p.src].balance < p.amount
    ensures Leads(es', populate, s') && OthersStay(s, s', i)
    ensures i < |s'.actors| && s'.actors[i].call == c.a.call && s'.actors[i].pc == Done(Failed(InsufficientFunds))
  {
    var c1;
    es', s', c1 := OneStep(es, populate, s, i, c);
    es', s', c1 := OneStep(es', populate, s', i, c1);
    es', s', c1 := FailingCheck(es', populate, s', i, c1);
  }

  lemma FailingCheck(es: seq<Event>, populate: bool, s: State, i: nat, c: Config)
    returns (es': seq<Event>, s': State, c': Config)
    requires At(es, populate, s, i, c) && c.a.pc == Check && c.a.call.Send? && c.a.heldRow == None
    requires var p := c.a.plan; p.src in c.a.held && p.dst in c.a.held && p.kind != SignupGrant
                                && 0 < p.amount && Cached(c.a, p.src) < p.amount
    ensures At(es', populate, s', i, c') && OthersStay(s, s', i)
    ensures c'.a.call == c.a.call && c'.a.pc == Done(Failed(InsufficientFunds))
  {
    es', s', c' := OneStep(es, populate, s, i, c);
    assert c'.a.pc == Unwind(InsufficientFunds);
    es', s', c' := OneStep(es', populate, s', i, c');
  }

  /** A send whose recipient turns out inactive ends there. */
  lemma Unresolved(es: seq<Event>, s: State, i: nat) returns (es': seq<Event>, s': State)
    requires Leads(es, true, s) && AllAtRest(s) && i < |s.actors| && s.actors[i].pc == Pin && s.actors[i].call.Send?
    requires s.actors[i].savepoint == NOTHING
    ensures Leads(es', true, s') && OthersStay(s, s', i) && s'.actors[i].call == s.actors[i].call
    ensures s'.actors[i].pc == Done(Failed(RecipientNotFound)) && s'.actors[i].x.pinOk
  {
    UndisputedReady(s, i);
    var es1, s1 := es + [Act(i, true, false)], ActOn(s, i, true, false, true);
    assert es1[..|es|] == es;
    assert s1.actors[i].pc == Unwind(RecipientNotFound) && AtRest(s1.actors[i]);
    var c;
    es', s', c := OneStep(es1, true, s1, i, Config(s1.store, s1.nextEntry, s1.actors[i]));
  }

  /** The recipient is resolved before the replay lookup: here the original has gone through and the PIN
      is right, but the recipient is inactive by then, and the retry is refused. */
  lemma RetryToInactive() returns (es: seq<Event>, s: State, i: nat)
    ensures Exec(es, true) == Some(s) && i + 1 < |s.actors|
    ensures s.actors[i].call == s.actors[i + 1].call == RETRIED
    ensures s.actors[i].pc.Done? && s.actors[i].pc.outcome.Sent?
    ensures s.actors[i + 1].pc == Done(Failed(RecipientNotFound)) && s.actors[i + 1].x.pinOk
  {
    var es0, s0 := TwoUsers(true);
    i := |s0.actors|;
    var es1, s1 := Starting(es0, true, s0, RETRIED, map[]);
    var es2, s2 := GivingPin(es1, true, s1, i);
    var es3, s3 := Sending(es2, true, s2, i, GRANT, GRANT);
    var es4, s4 := Starting(es3, true, s3, RETRIED, map[]);
    es, s := Unresolved(es4, s4, i + 1);
  }

  // --- a request paid by a transfer under its key ---------------------------------

  const IOU: RequestId := "r"
  const OWED: Request := Request(2, 1, 100, Pending, None, REQUEST_LIFETIME)
  const PREPAYMENT: Call := Send(1, 2, 100, Some(RequestKey(IOU)))

  lemma RequestOnly(st: Store, id: RequestId, q: Request)
    ensures Overlay(st, NOTHING.(request := Some((id, q)))) == st.(requests := st.requests[id := q])
  {
    assert SetBalances(st.wallets, map[]) == st.wallets;
    assert st.entries + [] == st.entries;
  }

  lemma Asking(es: seq<Event>, s: State, i: nat) returns (es': seq<Event>, s': State)
    requires Leads(es, true, s) && AllAtRest(s) && i < |s.actors| && s.actors[i].pc == Draft && s.actors[i].call.Ask?
    requires var c := s.actors[i].call;
             && c.payer in s.store.walletOf && c.requester in s.store.walletOf && c.payer != c.requester
             && 0 < c.amount <= MAX_NUMERIC && c.id !in s.store.requests
    ensures Leads(es', true, s') && AllAtRest(s') && OthersStay(s, s', i)
    ensures var c := s.actors[i].call;
            s'.store == s.store.(requests := s.store.requests[c.id := AskRow(c, s.clock)])
  {
    var c0 := Config(s.store, s.nextEntry, s.actors[i]);
    var es1, s1, c1 := OneStep(es, true, s, i, c0);
    var call := s.actors[i].call;
    assert c1.a.pc == Commit && c1.a.staged == NOTHING.(request := Some((call.id, AskRow(call, s.clock))));
    RequestOnly(s.store, call.id, AskRow(call, s.clock));
    var es2, s2, c2 := OneStep(es1, true, s1, i, c1);
    es', s' := es2, s2;
  }

  /** An approval that finds its key carried by a transaction for the same amount and recipient. */
  predicate Prepaid(s: State, i: nat, q: Request, t: Txn) {
    && i < |s.actors| && s.actors[i].call.Approve? && s.actors[i].pc == Row && s.actors[i].savepoint == NOTHING
    && var c := s.actors[i].call;
       && c.id in s.store.requests && s.store.requests[c.id] == q && q.payer == c.payer && q.requester != q.payer
       && q.status == Pending && s.clock < q.expires
       && q.payer in s.store.walletOf && q.requester in s.store.walletOf
       && FindReplay(s.store.txns, q.payer, Some(RequestKey(c.id))) == Some(t)
       && SameRequest(t, q.amount, s.store.walletOf[q.requester])
  }

  lemma Judging(es: seq<Event>, s: State, i: nat, q: Request, t: Txn) returns (es': seq<Event>, s': State, c': Config)
    requires Leads(es, true, s) && AllAtRest(s) && Prepaid(s, i, q, t)
    ensures At(es', true, s', i, c') && OthersStay(s, s', i) && c'.st == s.store && c'.a.call == s.actors[i].call
    ensures c'.a.pc == Lookup && c'.a.row == q && c'.a.held == {} && c'.a.staged == NOTHING
  {
    var es1, s1, c1 := OneStep(es, true, s, i, Config(s.store, s.nextEntry, s.actors[i]));
    assert c1.a.pc == Judge && c1.a.row == q;
    es', s', c' := OneStep(es1, true, s1, i, c1);
  }

  lemma Linking(es: seq<Event>, s: State, i: nat, c: Config, t: Txn) returns (es': seq<Event>, s': State)
    requires At(es, true, s, i, c) && c.a.call.Approve? && c.a.pc == Lookup && c.a.held == {} && c.a.staged == NOTHING
    requires var o := SettlementOrder(c.a.call.id, c.a.row);
             && Known(c.st, o) && o.initiator != o.to && FindReplay(c.st.txns, o.initiator, o.key) == Some(t)
             && SameRequest(t, o.amount, c.st.walletOf[o.to])
    ensures Leads(es', true, s') && OthersStay(s, s', i)
    ensures var row := c.a.row.(status := Approved, link := Some(t.id));
            s'.store == c.st.(requests := c.st.requests[c.a.call.id := row])
  {
    var es1, s1, c1 := OneStep(es, true, s, i, c);
    assert c1.a == c.a.(pc := Mark, moved := t.id);
    es', s' := Marking(es1, s1, i, c1);
  }

  lemma Marking(es: seq<Event>, s: State, i: nat, c: Config) returns (es': seq<Event>, s': State)
    requires At(es, true, s, i, c) && c.a.call.Approve? && c.a.pc == Mark && c.a.held == {} && c.a.staged == NOTHING
    ensures Leads(es', true, s') && OthersStay(s, s', i)
    ensures s'.store == c.st.(requests := c.st.requests[c.a.call.id := Marked(c.a)])
  {
    var es1, s1, c1 := OneStep(es, true, s, i, c);
    assert c1.a.pc == Commit && c1.a.staged == NOTHING.(request := Some((c.a.call.id, Marked(c.a))));
    RequestOnly(c.st, c.a.call.id, Marked(c.a));
    var es2, s2, c2 := OneStep(es1, true, s1, i, c1);
    es', s' := es2, s2;
  }

  lemma AskedAndSent() returns (es: seq<Event>, s: State, t: Txn)
    ensures Leads(es, true, s) && AllAtRest(s) && s.clock == 0
    ensures s.store.walletOf == map[1 := 2, 2 := 3] && s.store.requests == map[IOU := OWED]
    ensures s.store.txns != [] && t == s.store.txns[|s.store.txns| - 1]
    ensures t.kind == Transfer && t.amount == 100 && t.dst == 3 && Carries(t, 1, Some(RequestKey(IOU)))
  {
    var es0, s0 := TwoUsers(true);
    var i := |s0.actors|;
    var es1, s1 := Starting(es0, true, s0, Ask(IOU, 2, 1, 100), map[]);
    var es2, s2 := Asking(es1, s1, i);
    var es3, s3 := Starting(es2, true, s2, PREPAYMENT, map[]);
    var es4, s4 := GivingPin(es3, true, s3, i + 1);
    es, s := Sending(es4, true, s4, i + 1, GRANT, GRANT);
    t := s.store.txns[|s.store.txns| - 1];
  }

  /** A settlement is documented as typed REQUEST_SETTLEMENT. Here the payer sends the amount under the
      request's own key and then approves: the approved request links a TRANSFER. */
  lemma ApprovedByTransfer() returns (es: seq<Event>, s: State)
    ensures Exec(es, true) == Some(s) && IOU in s.store.requests && s.store.requests[IOU].status == Approved
    ensures s.store.txns != [] && s.store.txns[|s.store.txns| - 1].kind == Transfer
    ensures s.store.requests[IOU].link == Some(s.store.txns[|s.store.txns| - 1].id)
  {
    var es0, s0, t := AskedAndSent();
    var i := |s0.actors|;
    var es1, s1 := Starting(es0, true, s0, Approve(1, IOU), map[]);
    var es2, s2, c := Judging(es1, s1, i, OWED, t);
    es, s := Linking(es2, s2, i, c, t);
  }
}
