/** Concrete schedules: a transaction that runs while no other holds anything, and what such runs
    show about the populate_existing read and about retries. */
module Solo {
  import opened Tables
  import opened Ledger
  import opened Atomic
  import opened Interleaving

  // --- running one transaction alone ----------------------------------------

  predicate AtRest(a: Actor) {
    a.held == {} && a.heldRow == None && a.staged == NOTHING
  }

  /** Nobody but i holds anything. */
  predicate Undisputed(s: State, i: nat) {
    forall j :: 0 <= j < |s.actors| && j != i ==> AtRest(s.actors[j])
  }

  lemma UndisputedReady(s: State, i: nat)
    requires i < |s.actors| && OnScript(s.actors[i]) && !s.actors[i].pc.Done? && Undisputed(s, i)
    ensures Ready(s, i)
  {
  }

  datatype Config = Config(st: Store, nextEntry: EntryId, a: Actor)

  predicate Going(c: Config) {
    OnScript(c.a) && !c.a.pc.Done?
  }

  function StepAlone(c: Config, clock: int, populate: bool): Config
    requires Going(c)
  {
    Config(if c.a.pc.Commit? then Overlay(c.st, c.a.staged) else c.st,
           if c.a.pc.Debit? || c.a.pc.Credit? then c.nextEntry + 1 else c.nextEntry,
           Local(c.st, clock, c.nextEntry, c.a, true, true, populate))
  }

  predicate Shows(s: State, i: nat, c: Config) {
    i < |s.actors| && s.actors[i] == c.a && s.store == c.st && s.nextEntry == c.nextEntry
  }

  /** After the schedule es the state is s. */
  predicate Leads(es: seq<Event>, populate: bool, s: State) {
    Exec(es, populate) == Some(s)
  }

  /** After the schedule es transaction i stands as in c and nobody else holds anything. */
  predicate At(es: seq<Event>, populate: bool, s: State, i: nat, c: Config) {
    Leads(es, populate, s) && Shows(s, i, c) && Undisputed(s, i)
  }

  predicate OthersStay(s: State, s': State, i: nat) {
    && s'.clock == s.clock && |s'.actors| == |s.actors|
    && forall j :: 0 <= j < |s.actors| && j != i ==> s'.actors[j] == s.actors[j]
  }

  lemma OneStep(es: seq<Event>, populate: bool, s: State, i: nat, c: Config)
    returns (es': seq<Event>, s': State, c': Config)
    requires At(es, populate, s, i, c) && Going(c)
    ensures At(es', populate, s', i, c') && OthersStay(s, s', i)
    ensures c' == StepAlone(c, s.clock, populate)
  {
    UndisputedReady(s, i);
    es', s', c' := es + [Act(i, true, true)], ActOn(s, i, true, true, populate), StepAlone(c, s.clock, populate);
    assert es'[..|es|] == es;
  }

  // --- what a lone transfer does ----------------------------------------------

  /** The balance that the check and the new balances are computed from. */
  function ReadBalance(st: Store, a: Actor, w: WalletId, populate: bool): int
    requires w in st.wallets
  {
    if populate || w !in a.cache then st.wallets[w].balance else a.cache[w]
  }

  /** The state a move leaves when it took the wallets to hold s and d. */
  function PostFrom(st: Store, p: Plan, x: Fresh, s: int, d: int): Store
    requires p.src in st.wallets && p.dst in st.wallets
  {
    st.(wallets := st.wallets[p.src := st.wallets[p.src].(balance := s - p.amount)]
                             [p.dst := st.wallets[p.dst].(balance := d + p.amount)],
        txns := st.txns + [TxnRow(p, x.txn, Completed)],
        entries := st.entries + [DebitRow(p, x, s), CreditRow(p, x, d)])
  }

  predicate CanSend(st: Store, o: Order) {
    && Known(st, o) && o.initiator != o.to && o.kind == Transfer
    && !IndexHit(st.txns, o.initiator, o.key)
    && (var p := PlanOf(st, o);
        p.src in st.wallets && p.dst in st.wallets && p.src != p.dst && p.src != MINT && p.dst != MINT)
  }

  /** At the balance check, with both wallets locked and their balances taken to be s and d. */
  predicate AtCheck(c: Config, p: Plan, s: int, d: int) {
    && c.a.pc == Check && c.a.plan == p && c.a.held == {p.src, p.dst} && c.a.heldRow == None
    && Cached(c.a, p.src) == s && Cached(c.a, p.dst) == d
    && c.a.savepoint == NOTHING && c.a.staged == NOTHING.(account := c.a.staged.account)
  }

  /** Same call, same row ids still to come, same committed state. */
  predicate SameWork(c: Config, c': Config) {
    c'.a.call == c.a.call && c'.a.x == c.a.x && c'.st == c.st && c'.nextEntry == c.nextEntry
  }

  lemma LookupAlone(c: Config, clock: int, populate: bool)
    requires c.a.call.Send? && c.a.pc == Lookup && c.a.staged == NOTHING && CanSend(c.st, SendOrder(c.a.call))
    ensures var c' := StepAlone(c, clock, populate);
            && SameWork(c, c')
            && c'.a == c.a.(pc := LockLow, plan := PlanOf(c.st, SendOrder(c.a.call)), savepoint := NOTHING)
  {
  }

  lemma LocksAlone(c: Config, clock: int, populate: bool)
    requires c.a.call.Send? && c.a.pc == LockLow && AtRest(c.a) && c.a.savepoint == NOTHING
    requires c.a.plan.src in c.st.wallets && c.a.plan.dst in c.st.wallets && c.a.plan.src != c.a.plan.dst
    ensures Going(c) && Going(StepAlone(c, clock, populate))
    ensures var c' := StepAlone(StepAlone(c, clock, populate), clock, populate);
            && SameWork(c, c') && c'.a.staged == NOTHING
            && AtCheck(c', c.a.plan, ReadBalance(c.st, c.a, c.a.plan.src, populate),
                       ReadBalance(c.st, c.a, c.a.plan.dst, populate))
  {
  }

  lemma BothLocks(es: seq<Event>, populate: bool, s: State, i: nat, c: Config)
    returns (es': seq<Event>, s': State, c': Config)
    requires At(es, populate, s, i, c)
    requires c.a.call.Send? && c.a.pc == LockLow && AtRest(c.a) && c.a.savepoint == NOTHING
    requires c.a.plan.src in c.st.wallets && c.a.plan.dst in c.st.wallets && c.a.plan.src != c.a.plan.dst
    ensures At(es', populate, s', i, c') && OthersStay(s, s', i) && SameWork(c, c') && c'.a.staged == NOTHING
    ensures AtCheck(c', c.a.plan, ReadBalance(c.st, c.a, c.a.plan.src, populate),
                    ReadBalance(c.st, c.a, c.a.plan.dst, populate))
  {
    LocksAlone(c, s.clock, populate);
    var es1, s1, c1 := OneStep(es, populate, s, i, c);
    es', s', c' := OneStep(es1, populate, s1, i, c1);
  }

  lemma ToCheck(es: seq<Event>, populate: bool, s: State, i: nat, c: Config)
    returns (es': seq<Event>, s': State, c': Config)
    requires At(es, populate, s, i, c)
    requires c.a.call.Send? && c.a.pc == Lookup && AtRest(c.a)
    requires c.a.savepoint == NOTHING && CanSend(c.st, SendOrder(c.a.call))
    ensures At(es', populate, s', i, c') && OthersStay(s, s', i) && SameWork(c, c') && c'.a.staged == NOTHING
    ensures var p := PlanOf(c.st, SendOrder(c.a.call));
            AtCheck(c', p, ReadBalance(c.st, c.a, p.src, populate), ReadBalance(c.st, c.a, p.dst, populate))
  {
    LookupAlone(c, s.clock, populate);
    var es1, s1, c1 := OneStep(es, populate, s, i, c);
    es', s', c' := BothLocks(es1, populate, s1, i, c1);
  }

  lemma GrantToLocks(es: seq<Event>, populate: bool, s: State, i: nat, c: Config)
    returns (es': seq<Event>, s': State, c': Config)
    requires At(es, populate, s, i, c)
    requires c.a.call.Register? && c.a.pc == Phone && AtRest(c.a) && c.a.savepoint == NOTHING && c.a.cache == map[]
    requires c.a.call.account.phone !in c.st.phones
    ensures At(es', populate, s', i, c') && OthersStay(s, s', i) && SameWork(c, c')
    ensures c'.a == c.a.(pc := LockLow, plan := GrantPlan(c.a.call.account, c.a.call.grant),
                         staged := NOTHING.(account := Some(c.a.call.account)))
  {
    es', s', c' := OneStep(es, populate, s, i, c);
    assert c'.a == c.a.(pc := Insertion);
    es', s', c' := OneStep(es', populate, s', i, c');
  }

  lemma GrantLocks(es: seq<Event>, populate: bool, s: State, i: nat, c: Config)
    returns (es': seq<Event>, s': State, c': Config)
    requires At(es, populate, s, i, c) && c.a.call.Register?
    requires c.a.pc == LockLow && c.a.held == {} && c.a.heldRow == None
    requires c.a.plan == GrantPlan(c.a.call.account, c.a.call.grant) && c.a.cache == map[] && c.a.savepoint == NOTHING
    requires c.a.staged == NOTHING.(account := Some(c.a.call.account))
    requires c.a.call.account.wallet !in c.st.wallets && MINT in c.st.wallets
    ensures At(es', populate, s', i, c') && OthersStay(s, s', i) && SameWork(c, c') && c'.a.staged == c.a.staged
    ensures AtCheck(c', c.a.plan, c.st.wallets[MINT].balance, 0)
  {
    es', s', c' := OneStep(es, populate, s, i, c);
    assert c'.a.pc == LockHigh;
    es', s', c' := OneStep(es', populate, s', i, c');
  }

  predicate Covers(st: Store, p: Plan, s: int, d: int) {
    && 0 < p.amount <= MAX_NUMERIC && (p.kind != SignupGrant ==> p.amount <= s)
    && p.src != p.dst && !IndexHit(st.txns, p.initiator, p.key)
    && FitsNumeric(s - p.amount) && FitsNumeric(d + p.amount)
    && (p.src == MINT || 0 <= s - p.amount) && 0 <= d + p.amount
  }

  /** Index and update passed: the transaction row and both balances are staged. */
  predicate AtDebit(c: Config, p: Plan, s: int, d: int) {
    && c.a.pc == Debit && c.a.plan == p && c.a.heldRow == None
    && Cached(c.a, p.src) == s - p.amount && Cached(c.a, p.dst) == d + p.amount
    && c.a.staged == Staged(c.a.staged.account, Some(TxnRow(p, c.a.x.ids.txn, Processing)),
                            map[p.src := s - p.amount, p.dst := d + p.amount], [], None)
  }

  lemma ToUpdate(es: seq<Event>, populate: bool, st: State, i: nat, c: Config, p: Plan, s: int, d: int)
    returns (es': seq<Event>, s': State, c': Config)
    requires At(es, populate, st, i, c) && AtCheck(c, p, s, d)
    requires Covers(c.st, p, s, d) && (c.a.call.Send? || c.a.call.Register?)
    ensures At(es', populate, s', i, c') && OthersStay(st, s', i) && SameWork(c, c')
    ensures c'.a == c.a.(pc := Update, staged := c.a.staged.(txn := Some(TxnRow(p, c.a.x.ids.txn, Processing))))
  {
    es', s', c' := OneStep(es, populate, st, i, c);
    assert c'.a == c.a.(pc := Insert);
    es', s', c' := OneStep(es', populate, s', i, c');
  }

  lemma UpdateAlone(c: Config, clock: int, populate: bool, p: Plan, s: int, d: int)
    requires c.a.pc == Update && c.a.plan == p && c.a.heldRow == None && (c.a.call.Send? || c.a.call.Register?)
    requires Cached(c.a, p.src) == s && Cached(c.a, p.dst) == d && Covers(c.st, p, s, d)
    requires c.a.staged == Staged(c.a.staged.account, Some(TxnRow(p, c.a.x.ids.txn, Processing)), map[], [], None)
    ensures var c' := StepAlone(c, clock, populate);
            SameWork(c, c') && AtDebit(c', p, s, d) && c'.a.staged.account == c.a.staged.account
  {
  }

  lemma ToDebit(es: seq<Event>, populate: bool, st: State, i: nat, c: Config, p: Plan, s: int, d: int)
    returns (es': seq<Event>, s': State, c': Config)
    requires At(es, populate, st, i, c) && AtCheck(c, p, s, d)
    requires Covers(c.st, p, s, d) && (c.a.call.Send? || c.a.call.Register?)
    ensures At(es', populate, s', i, c') && OthersStay(st, s', i) && SameWork(c, c')
    ensures AtDebit(c', p, s, d) && c'.a.staged.account == c.a.staged.account
  {
    var es1, s1, c1 := ToUpdate(es, populate, st, i, c, p, s, d);
    UpdateAlone(c1, s1.clock, populate, p, s, d);
    es', s', c' := OneStep(es1, populate, s1, i, c1);
  }

  predicate Written(c: Config, p: Plan, x: Fresh, s: int, d: int) {
    && c.a.pc == Commit && c.a.heldRow == None && c.a.x.ids.txn == x.txn
    && c.a.staged == Staged(c.a.staged.account, Some(TxnRow(p, x.txn, Completed)),
                            map[p.src := s - p.amount, p.dst := d + p.amount],
                            [DebitRow(p, x, s), CreditRow(p, x, d)], None)
  }

  function NextIds(c: Config): Fresh {
    Fresh(c.a.x.ids.txn, c.nextEntry, c.nextEntry + 1, c.a.x.ids.at)
  }

  predicate AtCredit(c: Config, p: Plan, x: Fresh, s: int, d: int) {
    && c.a.pc == Credit && c.a.plan == p && c.a.heldRow == None && c.a.x.ids.txn == x.txn && c.a.x.ids.at == x.at
    && Cached(c.a, p.dst) == d + p.amount
    && c.a.staged == Staged(c.a.staged.account, Some(TxnRow(p, x.txn, Processing)),
                            map[p.src := s - p.amount, p.dst := d + p.amount], [DebitRow(p, x, s)], None)
  }

  lemma ToCredit(es: seq<Event>, populate: bool, st: State, i: nat, c: Config, p: Plan, s: int, d: int)
    returns (es': seq<Event>, s': State, c': Config)
    requires At(es, populate, st, i, c) && AtDebit(c, p, s, d) && OnScript(c.a)
    ensures At(es', populate, s', i, c') && OthersStay(st, s', i)
    ensures AtCredit(c', p, NextIds(c), s, d) && c'.a.staged.account == c.a.staged.account
    ensures c'.a.call == c.a.call && c'.st == c.st && c'.nextEntry == c.nextEntry + 1
  {
    es', s', c' := OneStep(es, populate, st, i, c);
  }

  lemma ToCommit(es: seq<Event>, populate: bool, st: State, i: nat, c: Config, p: Plan, x: Fresh, s: int, d: int)
    returns (es': seq<Event>, s': State, c': Config)
    requires At(es, populate, st, i, c) && AtCredit(c, p, x, s, d)
    requires x.credit == c.nextEntry && (c.a.call.Send? || c.a.call.Register?)
    ensures At(es', populate, s', i, c') && OthersStay(st, s', i)
    ensures Written(c', p, x, s, d) && c'.a.staged.account == c.a.staged.account
    ensures c'.a.call == c.a.call && c'.st == c.st
  {
    es', s', c' := OneStep(es, populate, st, i, c);
  }

  function OwnBase(c: Config): Store {
    if c.a.staged.account.Some? then AddAccount(c.st, c.a.staged.account.value) else c.st
  }

  lemma Committing(es: seq<Event>, populate: bool, st: State, i: nat, c: Config, p: Plan, x: Fresh, s: int, d: int)
    returns (es': seq<Event>, s': State, c': Config)
    requires At(es, populate, st, i, c) && Written(c, p, x, s, d)
    requires p.src in OwnBase(c).wallets && p.dst in OwnBase(c).wallets && p.src != p.dst
    ensures At(es', populate, s', i, c') && OthersStay(st, s', i)
    ensures c'.a.pc == Done(Result(c.a)) && AtRest(c'.a) && c'.a.call == c.a.call
    ensures c'.st == PostFrom(OwnBase(c), p, x, s, d)
  {
    es', s', c' := OneStep(es, populate, st, i, c);
    assert c'.st.wallets == PostFrom(OwnBase(c), p, x, s, d).wallets;
  }

  lemma FromDebit(es: seq<Event>, populate: bool, st: State, i: nat, c: Config, p: Plan, s: int, d: int)
    returns (es': seq<Event>, s': State, c': Config)
    requires At(es, populate, st, i, c) && AtDebit(c, p, s, d)
    requires OnScript(c.a) && (c.a.call.Send? || c.a.call.Register?)
    requires p.src in OwnBase(c).wallets && p.dst in OwnBase(c).wallets && p.src != p.dst
    ensures At(es', populate, s', i, c') && OthersStay(st, s', i)
    ensures Succeeds(c'.a) && AtRest(c'.a) && c'.a.call == c.a.call
    ensures c'.st == PostFrom(OwnBase(c), p, NextIds(c), s, d)
  {
    var es1, s1, c1 := ToCredit(es, populate, st, i, c, p, s, d);
    es', s', c' := FromCredit(es1, populate, s1, i, c1, c, p, s, d);
  }

  lemma FromCredit(es: seq<Event>, populate: bool, st: State, i: nat, c1: Config, c: Config, p: Plan, s: int, d: int)
    returns (es': seq<Event>, s': State, c': Config)
    requires At(es, populate, st, i, c1) && AtCredit(c1, p, NextIds(c), s, d) && NextIds(c).credit == c1.nextEntry
    requires c1.st == c.st && c1.a.staged.account == c.a.staged.account && c1.a.call == c.a.call
    requires c1.a.call.Send? || c1.a.call.Register?
    requires p.src in OwnBase(c).wallets && p.dst in OwnBase(c).wallets && p.src != p.dst
    ensures At(es', populate, s', i, c') && OthersStay(st, s', i)
    ensures Succeeds(c'.a) && AtRest(c'.a) && c'.a.call == c.a.call
    ensures c'.st == PostFrom(OwnBase(c), p, NextIds(c), s, d)
  {
    var es2, s2, c2 := ToCommit(es, populate, st, i, c1, p, NextIds(c), s, d);
    es', s', c' := FinalStep(es2, populate, s2, i, c2, c, p, s, d);
  }

  /** From a passed check on, an undisturbed move commits. */
  lemma FromCheck(es: seq<Event>, populate: bool, st: State, i: nat, c: Config, p: Plan, s: int, d: int)
    returns (es': seq<Event>, s': State, c': Config)
    requires At(es, populate, st, i, c) && AtCheck(c, p, s, d)
    requires Covers(c.st, p, s, d) && (c.a.call.Send? || c.a.call.Register?)
    requires p.src in OwnBase(c).wallets && p.dst in OwnBase(c).wallets
    ensures At(es', populate, s', i, c') && OthersStay(st, s', i)
    ensures Succeeds(c'.a) && AtRest(c'.a) && c'.a.call == c.a.call
    ensures c'.st == PostFrom(OwnBase(c), p, NextIds(c), s, d)
  {
    var es1, s1, c1 := ToDebit(es, populate, st, i, c, p, s, d);
    es', s', c' := FromDebit(es1, populate, s1, i, c1, p, s, d);
  }

  predicate Succeeds(a: Actor) {
    a.pc.Done? && if a.call.Send? then a.pc.outcome.Sent? else a.pc.outcome.Registered?
  }

  lemma FinalStep(es: seq<Event>, populate: bool, st: State, i: nat, c2: Config, c: Config, p: Plan, s: int, d: int)
    returns (es': seq<Event>, s': State, c': Config)
    requires At(es, populate, st, i, c2) && Written(c2, p, NextIds(c), s, d) && (c2.a.call.Send? || c2.a.call.Register?)
    requires c2.st == c.st && c2.a.staged.account == c.a.staged.account && c2.a.call == c.a.call
    requires p.src in OwnBase(c).wallets && p.dst in OwnBase(c).wallets && p.src != p.dst
    ensures At(es', populate, s', i, c') && OthersStay(st, s', i)
    ensures Succeeds(c'.a) && AtRest(c'.a) && c'.a.call == c.a.call
    ensures c'.st == PostFrom(OwnBase(c), p, NextIds(c), s, d)
  {
    es', s', c' := Committing(es, populate, st, i, c2, p, NextIds(c), s, d);
  }
}
