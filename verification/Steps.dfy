/** Each kind of step keeps the invariant. */
module Steps {
  import opened Tables
  import opened Ledger
  import opened Atomic
  import opened Interleaving
  import opened Invariant

  // --- inside the lock-to-write section -------------------------------------

  lemma LockLowStep(b: Store, n: EntryId, a: Actor)
    requires MoneyAt(b, n, a, 0)
    ensures var a' := LockStep(b.wallets, a, Low(a.plan), LockHigh, true);
            MoneyAt(b, n, a', 1) && a'.pc == LockHigh
  {
  }

  lemma LockHighStep(b: Store, n: EntryId, a: Actor)
    requires MoneyAt(b, n, a, 1)
    ensures var a' := LockStep(b.wallets, a, High(a.plan), Check, true);
            MoneyAt(b, n, a', 2) && a'.pc == Check
  {
  }

  lemma CheckStepAt(b: Store, n: EntryId, a: Actor)
    requires MoneyAt(b, n, a, 2)
    ensures CheckStep(a).pc.Unwind? || (MoneyAt(b, n, CheckStep(a), 3) && CheckStep(a).pc == Insert)
  {
  }

  lemma InsertStepAt(b: Store, n: EntryId, a: Actor)
    requires MoneyAt(b, n, a, 3) && !IndexHit(b.txns, a.plan.initiator, a.plan.key)
    ensures var a' := InsertStep(b.txns, a);
            a'.pc.Unwind? || (MoneyAt(b, n, a', 4) && a'.pc == Update)
  {
  }

  lemma UpdateStepAt(b: Store, n: EntryId, a: Actor)
    requires MoneyAt(b, n, a, 4)
    ensures var a' := UpdateStep(a);
            a'.pc.Unwind? || (MoneyAt(b, n, a', 5) && a'.pc == Debit)
  {
  }

  lemma DebitStepAt(b: Store, n: EntryId, a: Actor)
    requires MoneyAt(b, n, a, 5)
    requires forall k :: 0 <= k < |b.entries| ==> b.entries[k].id < n
    ensures MoneyAt(b, n + 1, DebitStep(a, n), 6)
  {
  }

  lemma CreditStepAt(b: Store, n: EntryId, a: Actor)
    requires MoneyAt(b, n, a, 6)
    ensures MoneyAt(b, n + 1, CreditStep(a, n), 7)
  {
  }

  // --- the acting transaction ----------------------------------------------

  /** What the steps inside the section leave alone. */
  predicate SameStory(a: Actor, a': Actor) {
    && a'.call == a.call && a'.row == a.row && a'.heldRow == a.heldRow && a'.plan == a.plan
    && a'.savepoint == a.savepoint
    && a'.x.(ids := a.x.ids) == a.x && a'.x.ids.txn == a.x.ids.txn
    && a'.staged.account == a.staged.account && a'.staged.request == a.staged.request
  }

  lemma InSection(st: Store, a: Actor, a': Actor)
    requires Context(st, a) && SameStory(a, a') && Level(a.pc) < 7 && Level(a'.pc) < 7
    ensures Context(st, a')
    ensures PlanFits(st, a) ==> PlanFits(st, a')
  {
  }

  lemma AbortKeeps(st: Store, n: EntryId, a: Actor, e: Error)
    requires Context(st, a) && !a.pc.Done? && (a.call.Register? ==> Keyless(a))
    ensures ActorOk(st, n, Abort(a, e))
  {
  }

  /** The store as an acting transaction finds it. */
  predicate Ground(st: Store, n: EntryId) {
    WalletsOk(st) && OwnersOk(st) && forall k :: 0 <= k < |st.entries| ==> st.entries[k].id < n
  }

  lemma PinKeeps(st: Store, clock: int, n: EntryId, a: Actor, pinOk: bool, active: bool)
    requires ActorOk(st, n, a) && a.pc == Pin
    ensures ActorOk(st, n, Local(st, clock, n, a, pinOk, active, true))
  {
    var b := a.(x := a.x.(pinOk := pinOk, active := active));
    if PinStep(a, pinOk, active).pc.Unwind? {
      AbortKeeps(st, n, b, PinStep(a, pinOk, active).pc.error);
    }
  }

  lemma RowKeeps(st: Store, n: EntryId, a: Actor)
    requires ActorOk(st, n, a) && a.pc == Row
    ensures ActorOk(st, n, RowStep(st, a))
  {
    if !PartyTo(st, a.call) {
      AbortKeeps(st, n, a, RequestNotFound);
    }
  }

  lemma PhoneKeeps(st: Store, clock: int, n: EntryId, a: Actor, pinOk: bool, active: bool)
    requires ActorOk(st, n, a) && a.pc == Phone
    ensures ActorOk(st, n, Local(st, clock, n, a, pinOk, active, true))
  {
  }

  lemma DraftKeeps(st: Store, clock: int, n: EntryId, a: Actor, active: bool)
    requires ActorOk(st, n, a) && a.pc == Draft
    ensures ActorOk(st, n, DraftStep(st, a, clock, active))
  {
  }

  lemma JudgeKeeps(st: Store, clock: int, n: EntryId, a: Actor, pinOk: bool, active: bool)
    requires ActorOk(st, n, a) && a.pc == Judge
    ensures ActorOk(st, n, JudgeStep(a, clock, pinOk, active))
  {
  }

  lemma InsertionKeeps(st: Store, n: EntryId, a: Actor)
    requires ActorOk(st, n, a) && a.pc == Insertion && MINT in st.wallets
    ensures ActorOk(st, n, InsertionStep(st, a))
  {
  }

  lemma ReplayKeeps(st: Store, n: EntryId, a: Actor, t: Txn)
    requires ActorOk(st, n, a) && (a.pc == Lookup || a.pc == Winner) && Known(st, OrderOf(a))
    requires t in st.txns && Carries(t, OrderOf(a).initiator, OrderOf(a).key)
    ensures ActorOk(st, n, ReplayStep(a, t, st.walletOf[OrderOf(a).to]))
  {
    var k :| 0 <= k < |st.txns| && st.txns[k] == t;
    var o, w := OrderOf(a), st.walletOf[OrderOf(a).to];
    if !SameRequest(t, o.amount, w) {
      AbortKeeps(st, n, a, KeyConflict);
    } else {
      assert ReplayOf(st, o, t.id);
    }
  }

  lemma LookupKeeps(st: Store, n: EntryId, a: Actor)
    requires ActorOk(st, n, a) && a.pc == Lookup && OwnersOk(st)
    ensures ActorOk(st, n, LookupStep(st, a))
  {
    var o := OrderOf(a);
    if !Known(st, o) {
      AbortKeeps(st, n, a, WalletMissing);
    } else if o.initiator == o.to {
      AbortKeeps(st, n, a, SelfTransfer);
    } else {
      match FindReplay(st.txns, o.initiator, o.key)
      case Some(t) => ReplayKeeps(st, n, a, t);
      case None =>
    }
  }

  lemma WinnerKeeps(st: Store, n: EntryId, a: Actor)
    requires ActorOk(st, n, a) && a.pc == Winner
    ensures ActorOk(st, n, WinnerStep(st, a))
  {
    match FindReplay(st.txns, a.plan.initiator, a.plan.key)
    case Some(t) => ReplayKeeps(st, n, a, t);
    case None => AbortKeeps(st, n, a, IntegrityFailure);
  }

  lemma LockLowKeeps(st: Store, n: EntryId, a: Actor)
    requires ActorOk(st, n, a) && a.pc == LockLow
    ensures ActorOk(st, n, LockStep(Seen(st, a), a, Low(a.plan), LockHigh, true))
  {
    LockLowStep(Base(st, a), n, a);
    InSection(st, a, LockStep(Seen(st, a), a, Low(a.plan), LockHigh, true));
  }

  lemma LockHighKeeps(st: Store, n: EntryId, a: Actor)
    requires ActorOk(st, n, a) && a.pc == LockHigh
    ensures ActorOk(st, n, LockStep(Seen(st, a), a, High(a.plan), Check, true))
  {
    LockHighStep(Base(st, a), n, a);
    InSection(st, a, LockStep(Seen(st, a), a, High(a.plan), Check, true));
  }

  lemma CheckKeeps(st: Store, n: EntryId, a: Actor)
    requires ActorOk(st, n, a) && a.pc == Check
    ensures ActorOk(st, n, CheckStep(a))
  {
    CheckStepAt(Base(st, a), n, a);
    if CheckStep(a).pc.Unwind? {
      AbortKeeps(st, n, a, CheckStep(a).pc.error);
    } else {
      InSection(st, a, CheckStep(a));
    }
  }

  lemma InsertKeeps(st: Store, n: EntryId, a: Actor)
    requires ActorOk(st, n, a) && a.pc == Insert
    ensures ActorOk(st, n, InsertStep(st.txns, a))
  {
    var a' := InsertStep(st.txns, a);
    if a'.pc.Unwind? {
      AbortKeeps(st, n, a, a'.pc.error);
    } else if a'.pc == Update {
      InsertGoesOn(st, n, a);
    }
  }

  lemma InsertGoesOn(st: Store, n: EntryId, a: Actor)
    requires ActorOk(st, n, a) && a.pc == Insert && InsertStep(st.txns, a).pc == Update
    ensures ActorOk(st, n, InsertStep(st.txns, a))
  {
    assert Base(st, a).txns == st.txns;
    InsertStepAt(Base(st, a), n, a);
    InSection(st, a, InsertStep(st.txns, a));
  }

  lemma UpdateKeeps(st: Store, n: EntryId, a: Actor)
    requires ActorOk(st, n, a) && a.pc == Update
    ensures ActorOk(st, n, UpdateStep(a))
  {
    UpdateStepAt(Base(st, a), n, a);
    if UpdateStep(a).pc.Unwind? {
      AbortKeeps(st, n, a, UpdateStep(a).pc.error);
    } else {
      InSection(st, a, UpdateStep(a));
    }
  }

  lemma DebitKeeps(st: Store, n: EntryId, a: Actor)
    requires ActorOk(st, n, a) && a.pc == Debit
    requires forall k :: 0 <= k < |st.entries| ==> st.entries[k].id < n
    ensures ActorOk(st, n + 1, DebitStep(a, n))
  {
    DebitStepAt(Base(st, a), n, a);
    InSection(st, a, DebitStep(a, n));
  }

  lemma CreditKeeps(st: Store, n: EntryId, a: Actor)
    requires ActorOk(st, n, a) && a.pc == Credit
    ensures ActorOk(st, n + 1, CreditStep(a, n))
  {
    CreditStepAt(Base(st, a), n, a);
  }

  lemma MarkKeeps(st: Store, n: EntryId, a: Actor)
    requires ActorOk(st, n, a) && a.pc == Mark
    ensures ActorOk(st, n, Local(st, 0, n, a, true, true, true))
  {
  }

  /** Any step but a commit keeps the acting transaction's own conditions. */
  lemma LocalKeeps(st: Store, clock: int, n: EntryId, a: Actor, pinOk: bool, active: bool)
    requires ActorOk(st, n, a) && Ground(st, n) && a.pc != Commit && !a.pc.Done?
    ensures ActorOk(st, if a.pc.Debit? || a.pc.Credit? then n + 1 else n, Local(st, clock, n, a, pinOk, active, true))
  {
    if StartsOut(a.pc) {
      EarlyKeeps(st, clock, n, a, pinOk, active);
    } else {
      LateKeeps(st, clock, n, a, pinOk, active);
    }
  }

  predicate StartsOut(pc: Pc) {
    pc in {Pin, Row, Phone, Draft, Judge, Insertion, Lookup}
  }

  lemma EarlyKeeps(st: Store, clock: int, n: EntryId, a: Actor, pinOk: bool, active: bool)
    requires ActorOk(st, n, a) && MINT in st.wallets && OwnersOk(st) && StartsOut(a.pc)
    ensures ActorOk(st, n, Local(st, clock, n, a, pinOk, active, true))
  {
    match a.pc
    case Pin => PinKeeps(st, clock, n, a, pinOk, active);
    case Row => RowKeeps(st, n, a);
    case Phone => PhoneKeeps(st, clock, n, a, pinOk, active);
    case Draft => DraftKeeps(st, clock, n, a, active);
    case Judge => JudgeKeeps(st, clock, n, a, pinOk, active);
    case Insertion => InsertionKeeps(st, n, a);
    case Lookup => LookupKeeps(st, n, a);
  }

  lemma LateKeeps(st: Store, clock: int, n: EntryId, a: Actor, pinOk: bool, active: bool)
    requires ActorOk(st, n, a) && Ground(st, n) && a.pc != Commit && !a.pc.Done? && !StartsOut(a.pc)
    ensures ActorOk(st, if a.pc.Debit? || a.pc.Credit? then n + 1 else n,
                    Local(st, clock, n, a, pinOk, active, true))
  {
    match a.pc
    case LockLow => LockLowKeeps(st, n, a);
    case LockHigh => LockHighKeeps(st, n, a);
    case Check => CheckKeeps(st, n, a);
    case Insert => InsertKeeps(st, n, a);
    case Update => UpdateKeeps(st, n, a);
    case Debit => DebitKeeps(st, n, a);
    case Credit => CreditKeeps(st, n, a);
    case Winner => WinnerKeeps(st, n, a);
    case Mark => MarkKeeps(st, n, a);
    case Unwind(_) =>
  }

  // --- the other transactions ----------------------------------------------

  lemma LaterIds(st: Store, n: EntryId, m: EntryId, a: Actor)
    requires ActorOk(st, n, a) && n <= m
    ensures ActorOk(st, m, a)
  {
  }

  /** A step acquires at most what it wanted. */
  predicate Gains(st: Store, a: Actor, a': Actor)
    requires OnScript(a)
  {
    && (forall w <- a'.held :: w in a.held || Wants(st, a) == Some(WalletLock(w)))
    && (a'.heldRow.Some? ==> a'.heldRow == a.heldRow || Wants(st, a) == Some(RowLock(a'.heldRow.value)))
    && (a'.staged.account.Some? ==>
          a'.staged.account == a.staged.account || Wants(st, a) == Some(PhoneSlot(a'.staged.account.value.phone)))
    && a'.call == a.call && a'.x.ids.txn == a.x.ids.txn && a'.savepoint == NOTHING
  }

  lemma GainsEarly(st: Store, clock: int, n: EntryId, a: Actor, pinOk: bool, active: bool)
    requires OnScript(a) && a.savepoint == NOTHING && a.pc in {Pin, Row, Judge, Phone, Insertion, Draft}
    ensures Gains(st, a, Local(st, clock, n, a, pinOk, active, true))
  {
  }

  lemma GainsLookup(st: Store, n: EntryId, a: Actor)
    requires Context(st, a) && (a.pc == Lookup || a.pc == Winner)
    requires a.pc == Lookup ==> Quiet(a)
    ensures Gains(st, a, Local(st, 0, n, a, true, true, true))
  {
  }

  lemma GainsLock(st: Store, n: EntryId, a: Actor)
    requires OnScript(a) && a.savepoint == NOTHING && Level(a.pc) < 2
    ensures Gains(st, a, Local(st, 0, n, a, true, true, true))
  {
  }

  lemma GainsLate(st: Store, n: EntryId, a: Actor)
    requires OnScript(a) && a.savepoint == NOTHING && (2 <= Level(a.pc) <= 7 || a.pc.Unwind?)
    ensures Gains(st, a, Local(st, 0, n, a, true, true, true))
  {
  }

  /** A step that was not blocked by b stays apart from b. */
  lemma LocalApart(st: Store, clock: int, n: EntryId, a: Actor, b: Actor, pinOk: bool, active: bool)
    requires ActorOk(st, n, a) && Apart(a, b) && !a.pc.Done?
    requires Wants(st, a).Some? ==> !Holds(b, Wants(st, a).value)
    ensures var a' := Local(st, clock, n, a, pinOk, active, true);
            Apart(a', b) && Apart(b, a') && a'.call == a.call && a'.x.ids.txn == a.x.ids.txn
  {
    var a' := Local(st, clock, n, a, pinOk, active, true);
    assert Gains(st, a, a') by {
      if a.pc in {Pin, Row, Judge, Phone, Insertion, Draft} {
        GainsEarly(st, clock, n, a, pinOk, active);
      } else if a.pc == Lookup || a.pc == Winner {
        GainsLookup(st, n, a);
      } else if Level(a.pc) < 2 {
        GainsLock(st, n, a);
      } else {
        GainsLate(st, n, a);
      }
    }
    GainsApart(st, a, a', b);
  }

  lemma GainsApart(st: Store, a: Actor, a': Actor, b: Actor)
    requires OnScript(a) && Gains(st, a, a') && Apart(a, b)
    requires Wants(st, a).Some? ==> !Holds(b, Wants(st, a).value)
    ensures Apart(a', b) && Apart(b, a')
  {
  }

  predicate TouchesRows(st: Store, st': Store, a: Actor) {
    && (forall u <- st.walletOf :: u in st'.walletOf && st'.walletOf[u] == st.walletOf[u])
    && (forall u <- st'.walletOf :: u in st.walletOf || (a.call.Register? && u == a.call.account.user))
    && (forall p <- st'.phones :: p in st.phones || (a.staged.account.Some? && p == a.staged.account.value.phone))
    && (forall id <- st.requests ::
          id in st'.requests && (a.heldRow != Some(id) ==> st'.requests[id] == st.requests[id]))
    && (forall id <- st'.requests :: id in st.requests || (a.call.Ask? && id == a.call.id))
  }

  predicate TouchesMoney(st: Store, st': Store, a: Actor) {
    && (forall w <- st.wallets :: w in st'.wallets && (w !in a.held ==> st'.wallets[w] == st.wallets[w]))
    && (forall w <- st'.wallets :: w in st.wallets || (a.call.Register? && w == a.call.account.wallet))
    && st.txns <= st'.txns
    && (forall k :: |st.txns| <= k < |st'.txns| ==> Mine(st', st'.txns[k], a))
    && st.entries <= st'.entries
    && (forall k :: |st.entries| <= k < |st'.entries| ==> st'.entries[k].wallet in a.held)
  }

  /** The committed state changes only within what the committing transaction owns. */
  predicate Touches(st: Store, st': Store, a: Actor) {
    TouchesRows(st, st', a) && TouchesMoney(st, st', a)
  }

  /** A keyed transaction is written only under the lock of its initiator's wallet. */
  predicate Mine(st: Store, t: Txn, a: Actor) {
    && t.src in a.held && t.id == a.x.ids.txn
    && (t.key.Some? ==> t.initiator in st.walletOf && t.src == st.walletOf[t.initiator])
  }

  /** The staged writes of a finished section amount to one posted event. */
  lemma OverlayIsPost(st: Store, n: EntryId, a: Actor)
    requires Money(st, n, a) && Level(a.pc) == 7
    ensures Overlay(st, a.staged).(requests := st.requests) == Post(Base(st, a), a.plan, a.x.ids)
  {
    var b, p := Base(st, a), a.plan;
    assert Overlay(st, a.staged).wallets == Post(b, p, a.x.ids).wallets;
  }

  lemma PostTouchesMoney(st: Store, n: EntryId, a: Actor)
    requires Money(st, n, a) && Level(a.pc) == 7 && AccountFits(st, a)
    ensures TouchesMoney(st, Post(Base(st, a), a.plan, a.x.ids), a)
  {
  }

  lemma PostTouches(st: Store, n: EntryId, a: Actor)
    requires Money(st, n, a) && Level(a.pc) == 7 && AccountFits(st, a)
    ensures Touches(st, Post(Base(st, a), a.plan, a.x.ids), a)
  {
    PostTouchesMoney(st, n, a);
  }

  lemma QuietTouches(st: Store, a: Actor)
    requires Context(st, a) && Quiet(a) && a.pc == Commit
    ensures Touches(st, Overlay(st, a.staged), a)
  {
    OverlayQuiet(st, a);
  }

  lemma RequestTouches(st: Store, a: Actor)
    requires Context(st, a) && a.pc == Commit && Touches(st, Overlay(st, a.staged).(requests := st.requests), a)
    ensures Touches(st, Overlay(st, a.staged), a)
  {
    var st' := Overlay(st, a.staged);
    assert forall t :: Mine(st'.(requests := st.requests), t, a) == Mine(st', t, a);
  }

  lemma CommitTouches(st: Store, n: EntryId, a: Actor)
    requires ActorOk(st, n, a) && a.pc == Commit
    ensures Touches(st, Overlay(st, a.staged), a)
  {
    if InMoney(a) {
      OverlayIsPost(st, n, a);
      PostTouches(st, n, a);
      assert Touches(st, Overlay(st, a.staged).(requests := st.requests), a);
      RequestTouches(st, a);
    } else {
      QuietTouches(st, a);
    }
  }

  /** How another's commit looks from inside the section: the planned wallets are still there, the
      held ones unchanged, and neither new entries nor a new carrier of the key concern this plan. */
  predicate Undisturbed(b: Store, b': Store, a: Actor) {
    && (forall w <- {a.plan.src, a.plan.dst} :: w in b.wallets ==> w in b'.wallets)
    && (forall w <- a.held :: w in b.wallets && w in b'.wallets && b'.wallets[w] == b.wallets[w])
    && (forall u <- b.walletOf :: u in b'.walletOf && b'.walletOf[u] == b.walletOf[u])
    && b.entries <= b'.entries
    && (forall k :: |b.entries| <= k < |b'.entries| ==> b'.entries[k].wallet !in a.held)
    && (IndexHit(b'.txns, a.plan.initiator, a.plan.key) && {a.plan.src, a.plan.dst} <= a.held ==>
          IndexHit(b.txns, a.plan.initiator, a.plan.key))
  }

  lemma FrameMoneyAt(b: Store, b': Store, n: EntryId, a: Actor, level: nat)
    requires Undisturbed(b, b', a) && MoneyAt(b, n, a, level) && level <= 7
    ensures MoneyAt(b', n, a, level)
  {
    if level >= 6 {
      assert AboveAll(b'.entries, a.plan, a.x.ids.debit) by {
        assert forall k :: 0 <= k < |b.entries| ==> b'.entries[k] == b.entries[k];
      }
    }
  }

  /** A new keyed transaction was written under its initiator's wallet lock, so not under this key. */
  lemma NoNewCarrier(st: Store, st': Store, a: Actor, b: Actor)
    requires Touches(st, st', b) && Apart(a, b)
    requires a.plan.key.Some? ==> a.plan.initiator in st.walletOf && st.walletOf[a.plan.initiator] in a.held
    ensures IndexHit(st'.txns, a.plan.initiator, a.plan.key) ==> IndexHit(st.txns, a.plan.initiator, a.plan.key)
  {
    forall k | |st.txns| <= k < |st'.txns| ensures !Carries(st'.txns[k], a.plan.initiator, a.plan.key) {
      assert Mine(st', st'.txns[k], b);
    }
    assert forall k :: 0 <= k < |st.txns| ==> st'.txns[k] == st.txns[k];
  }

  lemma FrameBase(st: Store, st': Store, n: EntryId, a: Actor, b: Actor)
    requires Touches(st, st', b) && Apart(a, b) && Money(st, n, a)
    ensures Undisturbed(Base(st, a), Base(st', a), a) && PlanFits(st', a)
  {
    if {a.plan.src, a.plan.dst} <= a.held {
      NoNewCarrier(st, st', a, b);
    }
  }

  lemma FrameMoney(st: Store, st': Store, n: EntryId, a: Actor, b: Actor)
    requires Touches(st, st', b) && Apart(a, b) && Money(st, n, a) && InMoney(a)
    ensures Money(st', n, a)
  {
    FrameBase(st, st', n, a, b);
    FrameMoneyAt(Base(st, a), Base(st', a), n, a, Level(a.pc));
  }

  lemma FrameContext(st: Store, st': Store, a: Actor, b: Actor)
    requires Touches(st, st', b) && Apart(a, b) && Context(st, a)
    ensures Context(st', a)
  {
  }

  lemma Frame(st: Store, st': Store, n: EntryId, a: Actor, b: Actor)
    requires Touches(st, st', b) && Apart(a, b) && ActorOk(st, n, a)
    ensures ActorOk(st', n, a)
  {
    FrameContext(st, st', a, b);
    if InMoney(a) {
      FrameMoney(st, st', n, a, b);
    }
  }

  lemma OverlayQuiet(st: Store, a: Actor)
    requires Quiet(a) && a.staged.request.Some?
    ensures Overlay(st, a.staged) ==
            st.(requests := st.requests[a.staged.request.value.0 := a.staged.request.value.1])
  {
    assert SetBalances(st.wallets, map[]) == st.wallets;
    assert st.entries + [] == st.entries;
  }

  // --- a commit is one atomic operation -------------------------------------

  lemma CommitRegister(st: Store, n: EntryId, a: Actor)
    requires ActorOk(st, n, a) && a.pc == Commit && a.call.Register?
    requires MINT in st.wallets && st.wallets[MINT].kind == System
    ensures RunRegister(st, a.call.account, a.call.grant, a.x) == (Overlay(st, a.staged), Result(a))
  {
    OverlayIsPost(st, n, a);
    GrantAtCommit(st, n, a);
  }

  lemma GrantAtCommit(st: Store, n: EntryId, a: Actor)
    requires Money(st, n, a) && Level(a.pc) == 7 && a.call.Register?
    requires MINT in st.wallets && st.wallets[MINT].kind == System
    requires AccountFits(st, a) && !a.pc.Done?
    ensures PostChecked(AddAccount(st, a.call.account), GrantPlan(a.call.account, a.call.grant), true, a.x.ids) ==
            Moved(Post(Base(st, a), a.plan, a.x.ids))
  {
  }

  lemma MovedAtCommit(st: Store, n: EntryId, a: Actor)
    requires Money(st, n, a) && Level(a.pc) == 7 && !a.call.Register?
    ensures Move(st, OrderOf(a), a.x.ids) == Moved(Post(st, a.plan, a.x.ids))
  {
    var o := OrderOf(a);
    assert FindReplay(st.txns, o.initiator, o.key).None?;
  }

  lemma CommitSend(st: Store, n: EntryId, a: Actor)
    requires ActorOk(st, n, a) && a.pc == Commit && a.call.Send?
    ensures RunSend(st, a.call, a.x) == (Overlay(st, a.staged), Result(a))
  {
    OverlayIsPost(st, n, a);
    MovedAtCommit(st, n, a);
  }

  lemma ReplayAtCommit(st: Store, o: Order, id: TxnId, x: Fresh)
    requires UniqueKeys(st.txns) && ReplayOf(st, o, id) && o.initiator != o.to && o.key.Some? && o.key.value != ""
    ensures Move(st, o, x) == Replay(id)
  {
    var k :| 0 <= k < |st.txns| && st.txns[k].id == id && Carries(st.txns[k], o.initiator, o.key)
             && SameRequest(st.txns[k], o.amount, st.walletOf[o.to]);
    OneCarrier(st.txns, FindReplay(st.txns, o.initiator, o.key).value, st.txns[k]);
  }

  lemma CommitApprove(st: Store, n: EntryId, a: Actor)
    requires ActorOk(st, n, a) && a.pc == Commit && a.call.Approve? && UniqueKeys(st.txns)
    requires a.call.id in st.requests ==> st.requests[a.call.id].requester != st.requests[a.call.id].payer
    ensures RunApprove(st, a.call.payer, a.call.id, a.x) == (Overlay(st, a.staged), Result(a))
  {
    if a.staged.txn.Some? {
      OverlayIsPost(st, n, a);
      MovedAtCommit(st, n, a);
    } else {
      ReplayAtCommit(st, OrderOf(a), a.moved, a.x.ids);
      OverlayQuiet(st, a);
    }
  }

  lemma CommitTurn(st: Store, n: EntryId, a: Actor)
    requires ActorOk(st, n, a) && a.pc == Commit && (a.call.Decline? || a.call.Cancel?)
    ensures RunTurn(st, Person(a.call), a.call.id, a.call.Decline?, a.x) == (Overlay(st, a.staged), Result(a))
  {
    OverlayQuiet(st, a);
  }

  lemma CommitAsk(st: Store, n: EntryId, a: Actor)
    requires ActorOk(st, n, a) && a.pc == Commit && a.call.Ask?
    ensures RunAsk(st, a.call, a.x) == (Overlay(st, a.staged), Result(a))
  {
    OverlayQuiet(st, a);
  }

  /** At the commit point, everything a transaction did since it began equals running its call
      alone on the committed state. */
  lemma CommitIsRun(st: Store, n: EntryId, a: Actor)
    requires StoreInv(st) && ActorOk(st, n, a) && a.pc == Commit
    ensures Run(st, a.call, a.x) == (Overlay(st, a.staged), Result(a))
  {
    match a.call
    case Register(_, _) => CommitRegister(st, n, a);
    case Send(_, _, _, _) => CommitSend(st, n, a);
    case Ask(_, _, _, _) => CommitAsk(st, n, a);
    case Approve(_, id) => assert RequestOk(st, id); CommitApprove(st, n, a);
    case Decline(_, _) => CommitTurn(st, n, a);
    case Cancel(_, _) => CommitTurn(st, n, a);
  }

  lemma CommitIdsFresh(st: Store, n: EntryId, a: Actor)
    requires ActorOk(st, n, a) && a.pc == Commit && UniqueKeys(st.txns)
    requires forall k :: 0 <= k < |st.txns| ==> st.txns[k].id != a.x.ids.txn
    requires a.call.Approve? ==> OrderOf(a).initiator != OrderOf(a).to
    ensures FreshCall(st, a.call) && FreshIds(st, a.call, a.x)
  {
    if a.call.Approve? && !a.staged.txn.Some? {
      ReplayAtCommit(st, OrderOf(a), a.moved, a.x.ids);
    }
  }

  /** A commit adds at most one transaction row, its own, and entries with ids already drawn. */
  lemma CommitAdds(st: Store, n: EntryId, a: Actor)
    requires ActorOk(st, n, a) && a.pc == Commit
    ensures var st' := Overlay(st, a.staged);
            && (st'.txns == st.txns || (|st'.txns| == |st.txns| + 1 && st'.txns[..|st.txns|] == st.txns
                                        && st'.txns[|st.txns|].id == a.x.ids.txn))
            && st.entries <= st'.entries
            && (forall k :: |st.entries| <= k < |st'.entries| ==> st'.entries[k].id < n)
  {
    if InMoney(a) {
      OverlayIsPost(st, n, a);
    }
  }
}
