/** What holds in every reachable state of the interleaved system. */
module Invariant {
  import opened Tables
  import opened Ledger
  import opened Atomic
  import opened Interleaving

  // --- one transaction -----------------------------------------------------

  /** How far through the lock-to-write section the program counter is: 0 to 6 inside it, 7 once
      everything is staged, 8 outside. */
  function Level(pc: Pc): nat {
    match pc
    case LockLow => 0
    case LockHigh => 1
    case Check => 2
    case Insert => 3
    case Update => 4
    case Debit => 5
    case Credit => 6
    case Mark => 7
    case Commit => 7
    case _ => 8
  }

  /** Inside the section, or past it with a transaction staged. */
  predicate InMoney(a: Actor) {
    Level(a.pc) < 7 || (Level(a.pc) == 7 && a.staged.txn.Some?)
  }

  /** The committed state together with the transaction's own new account. */
  function Base(st: Store, a: Actor): Store {
    if a.staged.account.Some? then AddAccount(st, a.staged.account.value) else st
  }

  function HeldAt(p: Plan, n: nat): set<WalletId> {
    if n == 0 then {} else if n == 1 then {Low(p)} else {p.src, p.dst}
  }

  function BalanceAt(b: Store, p: Plan, n: nat, w: WalletId): int
    requires w in b.wallets
  {
    b.wallets[w].balance + (if n < 5 then 0 else if w == p.src then -p.amount else if w == p.dst then p.amount else 0)
  }

  /** The staged writes that the program counter prescribes. */
  function StagedAt(b: Store, a: Actor, n: nat): Staged
    requires a.plan.src in b.wallets && a.plan.dst in b.wallets
  {
    var p, id := a.plan, a.x.ids;
    Staged(a.staged.account,
           if n < 4 then None else Some(TxnRow(p, id.txn, if n < 7 then Processing else Completed)),
           if n < 5 then map[] else map[p.src := BalanceAt(b, p, n, p.src), p.dst := BalanceAt(b, p, n, p.dst)],
           if n < 6 then []
           else if n < 7 then [DebitRow(p, id, b.wallets[p.src].balance)]
           else [DebitRow(p, id, b.wallets[p.src].balance), CreditRow(p, id, b.wallets[p.dst].balance)],
           a.staged.request)
  }

  /** Where the plan came from. */
  predicate PlanFits(st: Store, a: Actor) {
    if a.call.Register? then
      a.staged.account == Some(a.call.account) && a.plan == GrantPlan(a.call.account, a.call.grant)
    else
      && (a.call.Send? || a.call.Approve?)
      && a.staged.account == None
      && Known(st, OrderOf(a)) && OrderOf(a).initiator != OrderOf(a).to
      && a.plan == PlanOf(st, OrderOf(a))
  }

  /** The checks already passed at level n. */
  predicate Passed(b: Store, p: Plan, n: nat)
    requires p.src in b.wallets && p.dst in b.wallets
  {
    && (n >= 3 ==> 0 < p.amount && (p.kind != SignupGrant ==> p.amount <= b.wallets[p.src].balance))
    && (n >= 4 ==> !IndexHit(b.txns, p.initiator, p.key) && FitsNumeric(p.amount))
    && (n >= 5 ==> FitsNumeric(b.wallets[p.src].balance - p.amount) && FitsNumeric(b.wallets[p.dst].balance + p.amount))
  }

  predicate AboveAll(es: seq<Entry>, p: Plan, id: EntryId) {
    forall k :: 0 <= k < |es| && es[k].wallet in {p.src, p.dst} ==> es[k].id < id
  }

  /** Entry ids drawn under the locks lie above every committed entry of the locked wallets. */
  predicate Drawn(b: Store, p: Plan, id: Fresh, n: nat, nextEntry: EntryId) {
    && (n >= 6 ==> id.debit < nextEntry && AboveAll(b.entries, p, id.debit))
    && (n >= 7 ==> id.debit < id.credit < nextEntry)
  }

  predicate CacheFits(b: Store, a: Actor, n: nat) {
    forall w <- a.held :: w in b.wallets && w in a.cache && a.cache[w] == BalanceAt(b, a.plan, n, w)
  }

  /** What level n of the section prescribes, over the state b the transaction sees. */
  predicate MoneyAt(b: Store, nextEntry: EntryId, a: Actor, n: nat) {
    && PlanOk(b, a.plan)
    && a.held == HeldAt(a.plan, n)
    && CacheFits(b, a, n)
    && Passed(b, a.plan, n)
    && Drawn(b, a.plan, a.x.ids, n, nextEntry)
    && a.staged == StagedAt(b, a, n)
  }

  predicate Money(st: Store, nextEntry: EntryId, a: Actor) {
    PlanFits(st, a) && MoneyAt(Base(st, a), nextEntry, a, Level(a.pc))
  }

  /** A transaction with that id was made under the caller's key, for the caller's amount and
      recipient. */
  predicate ReplayOf(st: Store, o: Order, id: TxnId) {
    && Known(st, o)
    && exists k :: 0 <= k < |st.txns| && st.txns[k].id == id
                   && Carries(st.txns[k], o.initiator, o.key) && SameRequest(st.txns[k], o.amount, st.walletOf[o.to])
  }

  /** Nothing locked and nothing staged, except a request row about to be written. */
  predicate Quiet(a: Actor) {
    a.held == {} && a.staged == NOTHING.(request := a.staged.request)
  }

  predicate NeedsRow(a: Actor) {
    || a.pc == Judge || a.pc == Mark
    || (a.call.Approve? && (Level(a.pc) < 7 || a.pc == Lookup || a.pc == Winner))
    || (ActsOnRequest(a.call) && a.pc == Commit)
  }

  predicate RowFits(st: Store, a: Actor) {
    && (a.heldRow.Some? ==> ActsOnRequest(a.call) && a.heldRow.value == a.call.id
                            && a.call.id in st.requests && a.row == st.requests[a.call.id])
    && (NeedsRow(a) ==> a.heldRow.Some?)
    && (a.pc == Row ==> a.heldRow == None)
  }

  /** The verdict passed under the row lock, at the clock reading the transaction keeps. */
  predicate JudgedFits(a: Actor) {
    Level(a.pc) <= 7 || a.pc == Lookup || a.pc == Winner ==>
      && (ActsOnRequest(a.call) ==>
            && Verdict(a.row, Person(a.call), !a.call.Cancel?, a.x.now) == None
            && (a.call.Approve? ==> a.x.pinOk && a.x.active))
      && (a.call.Send? ==> a.x.pinOk && a.x.active && a.call.sender != a.call.to)
      && (a.call.Ask? ==> a.x.active)
  }

  predicate RequestStaged(st: Store, a: Actor) {
    match a.staged.request
    case None => a.pc == Commit ==> a.call.Register? || a.call.Send?
    case Some(pair) =>
      && a.pc == Commit
      && (ActsOnRequest(a.call) ==> pair == (a.call.id, Marked(a)))
      && (a.call.Ask? ==> pair == (a.call.id, AskRow(a.call, a.x.now)) && DraftStep(st, a, a.x.now, true).pc == Commit)
      && (ActsOnRequest(a.call) || a.call.Ask?)
  }

  predicate MovedFits(st: Store, a: Actor) {
    a.call.Approve? && Level(a.pc) == 7 ==>
      if a.staged.txn.Some? then a.moved == a.x.ids.txn else ReplayOf(st, OrderOf(a), a.moved)
  }

  predicate AccountFits(st: Store, a: Actor) {
    && (a.staged.account.Some? ==> a.call.Register? && a.staged.account.value == a.call.account
                                   && a.call.account.phone !in st.phones)
    && (!a.pc.Done? ==> FreshCall(st, a.call))
  }

  predicate DoneFits(st: Store, a: Actor) {
    && a.heldRow == None && a.held == {} && a.staged == NOTHING
    && (a.pc.Done? && a.pc.outcome.Replayed? ==> a.call.Send? && ReplayOf(st, SendOrder(a.call), a.pc.outcome.txn))
  }

  /** Everything but the locks, the cache and the staged money. */
  predicate Context(st: Store, a: Actor) {
    && OnScript(a) && a.savepoint == NOTHING
    && RowFits(st, a) && JudgedFits(a) && RequestStaged(st, a) && MovedFits(st, a) && AccountFits(st, a)
    && (a.pc == Commit && (a.call.Register? || a.call.Send?) ==> a.staged.txn.Some?)
    && (a.pc == Winner ==> PlanFits(st, a) && IndexHit(st.txns, a.plan.initiator, a.plan.key))
    && (a.pc.Done? ==> DoneFits(st, a))
  }

  predicate Keyless(a: Actor) {
    a.staged.txn.Some? ==> a.staged.txn.value.key == None
  }

  /** A transaction's own conditions, given the committed state. */
  predicate ActorOk(st: Store, nextEntry: EntryId, a: Actor) {
    && Context(st, a)
    && if InMoney(a) then Money(st, nextEntry, a) else Quiet(a) || (a.pc.Unwind? && a.call.Register? && Keyless(a))
  }

  // --- two transactions ----------------------------------------------------

  predicate Apart(a: Actor, b: Actor) {
    && a.held !! b.held
    && (a.heldRow.Some? ==> a.heldRow != b.heldRow)
    && (a.staged.account.Some? && b.staged.account.Some? ==>
          a.staged.account.value.phone != b.staged.account.value.phone)
    && DistinctIds(a.call, b.call)
  }

  // --- the whole system ----------------------------------------------------

  predicate Succeeded(o: Outcome) {
    !o.Failed? && !o.Replayed?
  }

  predicate TxnIdsFit(s: State) {
    && (forall i :: 0 <= i < |s.actors| ==> s.actors[i].x.ids.txn == i)
    && (forall k :: 0 <= k < |s.store.txns| ==>
          s.store.txns[k].id < |s.actors| && s.actors[s.store.txns[k].id].pc.Done?)
  }

  predicate ClocksFit(s: State) {
    forall i :: 0 <= i < |s.actors| ==> s.actors[i].x.now <= s.clock
  }

  predicate EntryIdsFit(s: State) {
    forall k :: 0 <= k < |s.store.entries| ==> s.store.entries[k].id < s.nextEntry
  }

  /** The log holds exactly the successful transactions, once each. */
  predicate LogFits(s: State) {
    && (forall k :: 0 <= k < |s.log| ==>
          var l := s.log[k];
          && l.actor < |s.actors| && s.actors[l.actor].call == l.call
          && s.actors[l.actor].pc == Done(l.outcome) && Succeeded(l.outcome))
    && (forall j, k :: 0 <= j < k < |s.log| ==> s.log[j].actor != s.log[k].actor)
    && (forall i :: 0 <= i < |s.actors| && s.actors[i].pc.Done? && Succeeded(s.actors[i].pc.outcome) ==>
          exists k :: 0 <= k < |s.log| && s.log[k].actor == i)
  }

  predicate ActorsOk(s: State) {
    forall i :: 0 <= i < |s.actors| ==> ActorOk(s.store, s.nextEntry, s.actors[i])
  }

  predicate AllApart(s: State) {
    forall i, j :: 0 <= i < |s.actors| && 0 <= j < |s.actors| && i != j ==> Apart(s.actors[i], s.actors[j])
  }

  ghost predicate Inv(s: State) {
    StoreInv(s.store) && TxnIdsFit(s) && ClocksFit(s) && EntryIdsFit(s) && LogFits(s) && ActorsOk(s) && AllApart(s)
  }
}
