/** The services as concurrent database transactions: READ COMMITTED reads, exclusive row locks
    taken one at a time, savepoints, unique-index checks, and a private cache of wallet balances
    per session that may hold anything until a locked read refreshes it. */
module Interleaving {
  import opened Tables
  import opened Ledger
  import opened Atomic

  datatype Pc =
    | Pin                    // send_money resolves the recipient, then compares the PIN
    | Row                    // lock the request row
    | Judge                  // role, expiry, status, PIN, requester's account
    | Phone                  // register looks the phone up
    | Insertion              // register inserts the user and the wallet
    | Draft                  // create_request inserts the request
    | Lookup                 // replay lookup, then the savepoint
    | LockLow | LockHigh     // one wallet row lock at a time, ascending ids
    | Check                  // amount and balance, from the session cache
    | Insert                 // the transactions row meets the unique index
    | Update                 // both wallet balances
    | Debit | Credit         // the two ledger entries
    | Winner                 // second replay lookup, after the index refused the row
    | Mark                   // the request's new status
    | Commit
    | Unwind(error: Error)   // savepoint already rolled back; end the outer transaction
    | Done(outcome: Outcome)

  /** One database transaction and the session that runs it. */
  datatype Actor = Actor(call: Call, pc: Pc, x: Inputs, plan: Plan, row: Request, moved: TxnId,
                         cache: map<WalletId, int>, held: set<WalletId>, heldRow: Option<RequestId>,
                         staged: Staged, savepoint: Staged)

  datatype Logged = Logged(actor: nat, call: Call, x: Inputs, outcome: Outcome)

  /** The committed tables, the transactions in flight or finished, the clock, the entry-id
      sequence (never rolled back), and the commits so far in order. */
  datatype State = State(store: Store, actors: seq<Actor>, clock: int, nextEntry: EntryId, log: seq<Logged>)

  const START: State := State(FRESH, [], 0, 0, [])

  datatype Event =
    | Begin(call: Call, cache: map<WalletId, int>)
    | Tick(now: int)
    | Act(actor: nat, pinOk: bool, active: bool)
    | Abandon(actor: nat)   // the connection is lost; the database rolls everything back

  // --- the start of a transaction ------------------------------------------

  const NO_PLAN: Plan := Plan(Transfer, 0, 0, 0, 0, None)
  const NO_ROW: Request := Request(0, 0, 0, Pending, None, 0)

  function FirstPc(c: Call): Pc {
    match c
    case Register(_, _) => Phone
    case Send(_, _, _, _) => Pin
    case Ask(_, _, _, _) => Draft
    case _ => Row
  }

  function Newcomer(c: Call, cache: map<WalletId, int>, index: nat, clock: int): Actor {
    Actor(c, FirstPc(c), Inputs(clock, false, false, Fresh(index, 0, 0, clock)), NO_PLAN, NO_ROW, 0,
          cache, {}, None, NOTHING, NOTHING)
  }

  /** Random ids never repeat: not in the tables and not in any other call. */
  predicate DistinctIds(c: Call, d: Call) {
    && (c.Register? && d.Register? ==> c.account.user != d.account.user && c.account.wallet != d.account.wallet)
    && (c.Ask? && d.Ask? ==> c.id != d.id)
  }

  // --- one local step ------------------------------------------------------

  function Low(p: Plan): WalletId { if p.src < p.dst then p.src else p.dst }
  function High(p: Plan): WalletId { if p.src < p.dst then p.dst else p.src }

  function OrderOf(a: Actor): Order
    requires a.call.Send? || a.call.Approve?
  {
    if a.call.Send? then SendOrder(a.call) else SettlementOrder(a.call.id, a.row)
  }

  predicate ActsOnRequest(c: Call) {
    c.Approve? || c.Decline? || c.Cancel?
  }

  function Person(c: Call): UserId
    requires ActsOnRequest(c)
  {
    if c.Cancel? then c.requester else c.payer
  }

  /** Rows this transaction can see: committed, or its own new wallet. */
  function Seen(st: Store, a: Actor): map<WalletId, Wallet> {
    if a.staged.account.Some? then AddAccount(st, a.staged.account.value).wallets else st.wallets
  }

  function Cached(a: Actor, w: WalletId): int {
    if w in a.cache then a.cache[w] else 0
  }

  /** A failing exit: whatever was written since the savepoint goes, with the locks taken since. */
  function Abort(a: Actor, e: Error): Actor {
    if a.call.Register? then a.(pc := Unwind(e))
    else a.(pc := Unwind(e), staged := a.savepoint, held := {})
  }

  function Finish(a: Actor, o: Outcome): Actor {
    a.(pc := Done(o), staged := NOTHING, held := {}, heldRow := None)
  }

  function LockStep(seen: map<WalletId, Wallet>, a: Actor, w: WalletId, next: Pc, populate: bool): Actor {
    if w !in seen then a.(pc := next)
    else
      var balance := if populate || w !in a.cache then seen[w].balance else a.cache[w];
      a.(pc := next, held := a.held + {w}, cache := a.cache[w := balance])
  }

  function ReplayStep(a: Actor, t: Txn, dst: WalletId): Actor
    requires a.call.Send? || a.call.Approve?
  {
    if !SameRequest(t, OrderOf(a).amount, dst) then Abort(a, KeyConflict)
    else if a.call.Send? then Finish(a, Replayed(t.id))
    else a.(pc := Mark, moved := t.id)
  }

  function LookupStep(st: Store, a: Actor): Actor
    requires a.call.Send? || a.call.Approve?
  {
    var o := OrderOf(a);
    if !Known(st, o) then Abort(a, WalletMissing)
    else if o.initiator == o.to then Abort(a, SelfTransfer)
    else
      match FindReplay(st.txns, o.initiator, o.key)
      case Some(t) => ReplayStep(a, t, st.walletOf[o.to])
      case None => a.(pc := LockLow, plan := PlanOf(st, o), savepoint := a.staged)
  }

  function CheckStep(a: Actor): Actor {
    if a.plan.src !in a.held || a.plan.dst !in a.held then Abort(a, WalletMissing)
    else if a.plan.amount <= 0 then Abort(a, BadAmount)
    else if a.plan.kind != SignupGrant && Cached(a, a.plan.src) < a.plan.amount then Abort(a, InsufficientFunds)
    else a.(pc := Insert)
  }

  function InsertStep(txns: seq<Txn>, a: Actor): Actor {
    if !FitsNumeric(a.plan.amount) then Abort(a, NumericOverflow)
    else if a.plan.src == a.plan.dst then Abort(a, IntegrityFailure)
    else if IndexHit(txns, a.plan.initiator, a.plan.key) then
      if a.call.Register? then Abort(a, IntegrityFailure)
      else a.(pc := Winner, staged := a.savepoint, held := {})
    else a.(pc := Update, staged := a.staged.(txn := Some(TxnRow(a.plan, a.x.ids.txn, Processing))))
  }

  /** The UPDATE of both wallets, with the column type and the no_overdraft CHECK. */
  function UpdateStep(a: Actor): Actor {
    var s, d := Cached(a, a.plan.src) - a.plan.amount, Cached(a, a.plan.dst) + a.plan.amount;
    if !FitsNumeric(s) || !FitsNumeric(d) then Abort(a, NumericOverflow)
    else if (a.plan.src != MINT && s < 0) || (a.plan.dst != MINT && d < 0) then Abort(a, InsufficientFunds)
    else
      a.(pc := Debit, cache := a.cache[a.plan.src := s][a.plan.dst := d],
         staged := a.staged.(balances := map[a.plan.src := s, a.plan.dst := d]))
  }

  function DebitStep(a: Actor, id: EntryId): Actor {
    var e := Entry(id, a.x.ids.txn, a.plan.src, -a.plan.amount, Cached(a, a.plan.src), a.x.ids.at);
    a.(pc := Credit, x := a.x.(ids := a.x.ids.(debit := id)), staged := a.staged.(entries := [e]))
  }

  function CreditStep(a: Actor, id: EntryId): Actor {
    var e := Entry(id, a.x.ids.txn, a.plan.dst, a.plan.amount, Cached(a, a.plan.dst), a.x.ids.at);
    a.(pc := if a.call.Approve? then Mark else Commit, moved := a.x.ids.txn,
       x := a.x.(ids := a.x.ids.(credit := id)),
       staged := a.staged.(entries := a.staged.entries + [e], txn := Some(TxnRow(a.plan, a.x.ids.txn, Completed))))
  }

  function WinnerStep(st: Store, a: Actor): Actor
    requires a.call.Send? || a.call.Approve?
  {
    match FindReplay(st.txns, a.plan.initiator, a.plan.key)
    case Some(t) => ReplayStep(a, t, a.plan.dst)
    case None => Abort(a, IntegrityFailure)
  }

  function RowStep(st: Store, a: Actor): Actor
    requires ActsOnRequest(a.call)
  {
    if !PartyTo(st, a.call) then Abort(a, RequestNotFound)
    else a.(pc := Judge, heldRow := Some(a.call.id), row := st.requests[a.call.id])
  }

  /** The row lock is scoped to someone who is party to the request. */
  predicate PartyTo(st: Store, c: Call)
    requires ActsOnRequest(c)
  {
    c.id in st.requests && Person(c) in {st.requests[c.id].requester, st.requests[c.id].payer}
  }

  /** The recipient must be active and someone else; only then is the PIN looked at. */
  function PinStep(a: Actor, pinOk: bool, active: bool): Actor
    requires a.call.Send?
  {
    var b := a.(x := a.x.(pinOk := pinOk, active := active));
    if !active then Abort(b, RecipientNotFound)
    else if a.call.sender == a.call.to then Abort(b, SelfTransfer)
    else if !pinOk then Abort(b, InvalidPin)
    else b.(pc := Lookup)
  }

  function JudgeStep(a: Actor, now: int, pinOk: bool, active: bool): Actor
    requires ActsOnRequest(a.call)
  {
    match Verdict(a.row, Person(a.call), !a.call.Cancel?, now)
    case Some(e) => Abort(a, e)
    case None =>
      var b := a.(x := a.x.(now := now, pinOk := pinOk, active := active));
      if !a.call.Approve? then b.(pc := Mark)
      else if !pinOk then Abort(b, InvalidPin)
      else if !active then Abort(b, RecipientNotFound)
      else b.(pc := Lookup)
  }

  function Marked(a: Actor): Request {
    match a.call
    case Approve(_, _) => a.row.(status := Approved, link := Some(a.moved))
    case Decline(_, _) => a.row.(status := Declined)
    case _ => a.row.(status := Cancelled)
  }

  function DraftStep(st: Store, a: Actor, now: int, active: bool): Actor
    requires a.call.Ask?
  {
    var b := a.(x := a.x.(now := now, active := active));
    if a.call.payer !in st.walletOf || !active then Abort(b, RecipientNotFound)
    else if a.call.payer == a.call.requester then Abort(b, SelfRequest)
    else if !FitsNumeric(a.call.amount) then Abort(b, NumericOverflow)
    else if a.call.requester !in st.walletOf || a.call.amount <= 0 || a.call.id in st.requests then
      Abort(b, IntegrityFailure)
    else b.(pc := Commit, staged := a.staged.(request := Some((a.call.id, AskRow(a.call, now)))))
  }

  function InsertionStep(st: Store, a: Actor): Actor
    requires a.call.Register?
  {
    if a.call.account.phone in st.phones then Abort(a, PhoneTaken)
    else a.(pc := LockLow, plan := GrantPlan(a.call.account, a.call.grant),
            staged := a.staged.(account := Some(a.call.account)))
  }

  function Result(a: Actor): Outcome {
    match a.call
    case Register(_, _) => Registered(a.x.ids.txn)
    case Send(_, _, _, _) => Sent(a.x.ids.txn)
    case Ask(_, _, _, _) => Asked
    case Approve(_, _) => Settled(a.moved)
    case Decline(_, _) => Turned(Declined)
    case Cancel(_, _) => Turned(Cancelled)
  }

  /** The program counter fits the call. */
  predicate OnScript(a: Actor) {
    match a.pc
    case Pin => a.call.Send?
    case Row => ActsOnRequest(a.call)
    case Judge => ActsOnRequest(a.call)
    case Phone => a.call.Register?
    case Insertion => a.call.Register?
    case Draft => a.call.Ask?
    case Lookup => a.call.Send? || a.call.Approve?
    case Winner => a.call.Send? || a.call.Approve?
    case Mark => ActsOnRequest(a.call)
    case Commit => true
    case Unwind(_) => true
    case Done(_) => true
    case _ => a.call.Register? || a.call.Send? || a.call.Approve?
  }

  /** The step a transaction takes next, on the committed state it sees. */
  function Local(st: Store, clock: int, nextEntry: EntryId, a: Actor, pinOk: bool, active: bool, populate: bool): Actor
    requires OnScript(a)
  {
    match a.pc
    case Pin => PinStep(a, pinOk, active)
    case Row => RowStep(st, a)
    case Judge => JudgeStep(a, clock, pinOk, active)
    case Phone => if a.call.account.phone in st.phones then Abort(a, PhoneTaken) else a.(pc := Insertion)
    case Insertion => InsertionStep(st, a)
    case Draft => DraftStep(st, a, clock, active)
    case Lookup => LookupStep(st, a)
    case LockLow => LockStep(Seen(st, a), a, Low(a.plan), LockHigh, populate)
    case LockHigh => LockStep(Seen(st, a), a, High(a.plan), Check, populate)
    case Check => CheckStep(a)
    case Insert => InsertStep(st.txns, a)
    case Update => UpdateStep(a)
    case Debit => DebitStep(a, nextEntry)
    case Credit => CreditStep(a, nextEntry)
    case Winner => WinnerStep(st, a)
    case Mark => a.(pc := Commit, staged := a.staged.(request := Some((a.call.id, Marked(a)))))
    case Commit => Finish(a, Result(a))
    case Unwind(e) => Finish(a, Failed(e))
    case Done(_) => a
  }

  // --- waiting -------------------------------------------------------------

  datatype Resource = PhoneSlot(phone: string) | RowLock(id: RequestId) | WalletLock(wallet: WalletId)
                    | KeySlot(initiator: UserId, key: Option<Key>)

  predicate Holds(a: Actor, r: Resource) {
    match r
    case PhoneSlot(p) => a.staged.account.Some? && a.staged.account.value.phone == p
    case RowLock(id) => a.heldRow == Some(id)
    case WalletLock(w) => w in a.held
    case KeySlot(u, k) => a.staged.txn.Some? && Carries(a.staged.txn.value, u, k)
  }

  /** What the next step must acquire, if anything. */
  function Wants(st: Store, a: Actor): Option<Resource>
    requires OnScript(a)
  {
    match a.pc
    case Insertion => Some(PhoneSlot(a.call.account.phone))
    case Row => if PartyTo(st, a.call) then Some(RowLock(a.call.id)) else None
    case LockLow => if Low(a.plan) in Seen(st, a) then Some(WalletLock(Low(a.plan))) else None
    case LockHigh => if High(a.plan) in Seen(st, a) then Some(WalletLock(High(a.plan))) else None
    case Insert => if a.plan.key.Some? then Some(KeySlot(a.plan.initiator, a.plan.key)) else None
    case _ => None
  }

  /** Transaction i cannot go on until transaction j ends or lets go. */
  predicate WaitsFor(s: State, i: nat, j: nat)
    requires i < |s.actors| && j < |s.actors| && OnScript(s.actors[i])
  {
    i != j && Wants(s.store, s.actors[i]).Some? && Holds(s.actors[j], Wants(s.store, s.actors[i]).value)
  }

  predicate Blocked(s: State, i: nat)
    requires i < |s.actors| && OnScript(s.actors[i])
  {
    exists j :: 0 <= j < |s.actors| && WaitsFor(s, i, j)
  }

  predicate Ready(s: State, i: nat) {
    i < |s.actors| && OnScript(s.actors[i]) && !s.actors[i].pc.Done? && !Blocked(s, i)
  }

  // --- the system ----------------------------------------------------------

  predicate Legal(s: State, e: Event) {
    match e
    case Begin(c, _) => FreshCall(s.store, c) && forall i :: 0 <= i < |s.actors| ==> DistinctIds(s.actors[i].call, c)
    case Tick(now) => s.clock <= now
    case Act(i, _, _) => Ready(s, i)
    case Abandon(i) => i < |s.actors| && !s.actors[i].pc.Done?
  }

  function ActOn(s: State, i: nat, pinOk: bool, active: bool, populate: bool): State
    requires Ready(s, i)
  {
    var a := s.actors[i];
    var s' := s.(actors := s.actors[i := Local(s.store, s.clock, s.nextEntry, a, pinOk, active, populate)],
                 nextEntry := if a.pc.Debit? || a.pc.Credit? then s.nextEntry + 1 else s.nextEntry);
    if a.pc.Commit? then s'.(store := Overlay(s.store, a.staged), log := s.log + [Logged(i, a.call, a.x, Result(a))])
    else s'
  }

  function Do(s: State, e: Event, populate: bool): State
    requires Legal(s, e)
  {
    match e
    case Begin(c, cache) => s.(actors := s.actors + [Newcomer(c, cache, |s.actors|, s.clock)])
    case Tick(now) => s.(clock := now)
    case Act(i, pinOk, active) => ActOn(s, i, pinOk, active, populate)
    case Abandon(i) => s.(actors := s.actors[i := Finish(s.actors[i], Failed(Disconnected))])
  }

  /** The event is a step of transaction i or its end. */
  predicate Concerns(e: Event, i: nat) {
    (e.Act? || e.Abandon?) && e.actor == i
  }

  /** The state a finite schedule leads to from the freshly migrated database, if every event of it
      can happen. */
  function Exec(es: seq<Event>, populate: bool): Option<State> {
    if es == [] then Some(START)
    else
      match Exec(es[..|es| - 1], populate)
      case None => None
      case Some(s) => if Legal(s, es[|es| - 1]) then Some(Do(s, es[|es| - 1], populate)) else None
  }
}
