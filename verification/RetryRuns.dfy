/** What the other calls of a retried send answer, over whole schedules. */
module RetryRuns {
  import opened Tables
  import opened Ledger
  import opened Atomic
  import opened Interleaving
  import opened Invariant
  import opened Reachability
  import opened Guarantees
  import opened RequestRuns
  import opened Supply

  /** The refusals that a retry can meet, each with what it read. */
  predicate Refusable(a: Actor, e: Error) {
    || (e == RecipientNotFound && !a.x.active)
    || (e == InvalidPin && !a.x.pinOk)
    || e == InsufficientFunds
  }

  predicate Answerable(a: Actor) {
    match a.pc
    case Unwind(e) => Refusable(a, e)
    case Done(o) =>
      if o.Failed? then Refusable(a, o.error) || o.error == Disconnected
      else (o.Sent? || o.Replayed?) && a.x.active && a.x.pinOk
    case _ => true
  }

  /** Two users, a positive amount and a non-empty key that nobody has used for anything else. */
  ghost predicate Clear(st: Store, o: Order) {
    && Known(st, o) && o.initiator != o.to && 0 < o.amount && o.key.Some? && o.key.value != ""
    && forall t <- st.txns :: Carries(t, o.initiator, o.key) ==> SameRequest(t, o.amount, st.walletOf[o.to])
  }

  // --- one step -------------------------------------------------------------------

  lemma WriteStep(st: Store, n: EntryId, a: Actor)
    requires LedgerInv(st) && ActorOk(st, n, a) && a.call.Send? && a.pc in {Insert, Update}
    ensures if a.pc == Insert then InsertStep(st.txns, a).pc in {Update, Winner} else UpdateStep(a).pc == Debit
  {
    PassedCheck(st, n, a);
    TransferFits(st, a.plan);
  }

  lemma LookupAnswers(st: Store, n: EntryId, a: Actor)
    requires ActorOk(st, n, a) && a.call.Send? && a.pc in {Lookup, Winner} && Clear(st, SendOrder(a.call))
    ensures Answerable(if a.pc == Lookup then LookupStep(st, a) else WinnerStep(st, a))
  {
  }

  lemma CheckAnswers(st: Store, n: EntryId, a: Actor)
    requires ActorOk(st, n, a) && a.call.Send? && a.pc == Check && 0 < a.call.amount
    ensures Answerable(CheckStep(a))
  {
  }

  lemma SendStep(st: Store, clock: int, n: EntryId, a: Actor, pinOk: bool, active: bool)
    requires LedgerInv(st) && ActorOk(st, n, a) && a.call.Send? && Clear(st, SendOrder(a.call)) && Answerable(a)
    ensures Answerable(Local(st, clock, n, a, pinOk, active, true))
  {
    if a.pc in {Insert, Update} {
      WriteStep(st, n, a);
    } else if a.pc in {Lookup, Winner} {
      LookupAnswers(st, n, a);
    } else if a.pc == Check {
      CheckAnswers(st, n, a);
    } else {
      OtherAnswers(st, clock, n, a, pinOk, active);
    }
  }

  lemma OtherAnswers(st: Store, clock: int, n: EntryId, a: Actor, pinOk: bool, active: bool)
    requires OnScript(a) && JudgedFits(a) && a.call.Send? && a.call.sender != a.call.to
    requires a.pc !in {Insert, Update, Lookup, Winner, Check} && Answerable(a)
    ensures Answerable(Local(st, clock, n, a, pinOk, active, true))
  {
  }

  // --- schedules ------------------------------------------------------------------

  lemma ClearBefore(st: Store, st': Store, o: Order)
    requires Grows(st, st') && Clear(st', o) && Known(st, o)
    ensures Clear(st, o)
  {
    forall t <- st.txns ensures t in st'.txns {
      var k :| 0 <= k < |st.txns| && st.txns[k] == t;
      assert st'.txns[k] == t;
    }
  }

  /** Transaction j is this send, if it has begun. */
  predicate IsSend(s: State, j: nat, o: Order) {
    j < |s.actors| ==> s.actors[j].call.Send? && SendOrder(s.actors[j].call) == o
  }

  predicate OnCourse(s: State, j: nat) {
    j < |s.actors| ==> Answerable(s.actors[j])
  }

  lemma EventAnswers(s: State, e: Event, j: nat, o: Order)
    requires LedgerInv(s.store) && ActorsOk(s) && Legal(s, e)
    requires IsSend(s, j, o) && Clear(s.store, o) && OnCourse(s, j)
    requires IsSend(Do(s, e, true), j, o)
    ensures OnCourse(Do(s, e, true), j)
  {
    if j < |s.actors| && Concerns(e, j) && e.Act? {
      assert ActorOk(s.store, s.nextEntry, s.actors[j]);
      SendStep(s.store, s.clock, s.nextEntry, s.actors[j], e.pinOk, e.active);
    }
  }

  lemma SameSend(s: State, e: Event, j: nat, o: Order)
    requires Legal(s, e) && IsSend(Do(s, e, true), j, o)
    ensures IsSend(s, j, o)
  {
    if Concerns(e, j) {
      OwnEventKeepsCall(s, e, j);
    }
  }

  lemma {:induction false} AnswersAllowed(es: seq<Event>, k: nat, j: nat, o: Order)
    requires k <= |es| && Exec(es, true).Some? && Exec(es[..k], true).Some?
    requires |Exec(es[..k], true).value.actors| <= j && Known(Exec(es[..k], true).value.store, o)
    requires IsSend(Exec(es, true).value, j, o) && Clear(Exec(es, true).value.store, o)
    ensures Known(Exec(es, true).value.store, o) && OnCourse(Exec(es, true).value, j)
    decreases |es|
  {
    if k == |es| {
      assert es[..k] == es;
    } else {
      var es', e := es[..|es| - 1], es[|es| - 1];
      var s := Exec(es', true).value;
      assert es'[..k] == es[..k];
      ReachableInv(es');
      EventStoreGrows(s, e);
      SameSend(s, e, j, o);
      KnownLasts(es', k, o);
      ClearBefore(s.store, Exec(es, true).value.store, o);
      AnswersAllowed(es', k, j, o);
      EventAnswers(s, e, j, o);
    }
  }

  lemma {:induction false} KnownLasts(es: seq<Event>, k: nat, o: Order)
    requires k <= |es| && Exec(es, true).Some? && Exec(es[..k], true).Some? && Known(Exec(es[..k], true).value.store, o)
    ensures Known(Exec(es, true).value.store, o)
    decreases |es|
  {
    if k == |es| {
      assert es[..k] == es;
    } else {
      assert es[..|es| - 1][..k] == es[..k];
      KnownLasts(es[..|es| - 1], k, o);
      ReachableInv(es[..|es| - 1]);
      EventStoreGrows(Exec(es[..|es| - 1], true).value, es[|es| - 1]);
    }
  }

  // --- lack of funds -----------------------------------------------------------------

  /** Transaction j, a send, stands at its balance check and the sender's committed balance is too low. */
  predicate Short(s: State, j: nat) {
    && j < |s.actors| && s.actors[j].pc == Check && s.actors[j].call.Send?
    && var c := s.actors[j].call;
       && c.sender in s.store.walletOf && s.store.walletOf[c.sender] in s.store.wallets
       && s.store.wallets[s.store.walletOf[c.sender]].balance < c.amount
  }

  /** At some moment of the schedule it stood there so. */
  predicate StoodShort(es: seq<Event>, j: nat) {
    || (Exec(es, true).Some? && Short(Exec(es, true).value, j))
    || (es != [] && StoodShort(es[..|es| - 1], j))
  }

  predicate LacksFunds(pc: Pc) {
    pc == Unwind(InsufficientFunds) || pc == Done(Failed(InsufficientFunds))
  }

  lemma CheckReadsBalance(s: State, j: nat)
    requires ActorsOk(s) && j < |s.actors| && s.actors[j].call.Send? && s.actors[j].pc == Check
    requires 0 < s.actors[j].call.amount
    ensures CheckStep(s.actors[j]).pc == if Short(s, j) then Unwind(InsufficientFunds) else Insert
  {
    var a := s.actors[j];
    assert ActorOk(s.store, s.nextEntry, a);
    assert a.plan.src in a.held && Base(s.store, a) == s.store;
  }

  lemma OnlyChecksRefuse(st: Store, clock: int, n: EntryId, a: Actor, pinOk: bool, active: bool)
    requires OnScript(a) && a.call.Send? && a.pc !in {Check, Update} && !LacksFunds(a.pc)
    ensures !LacksFunds(Local(st, clock, n, a, pinOk, active, true).pc)
  {
  }

  lemma StepWasShort(s: State, j: nat, pinOk: bool, active: bool)
    requires LedgerInv(s.store) && ActorsOk(s) && j < |s.actors|
    requires s.actors[j].call.Send? && 0 < s.actors[j].call.amount
    requires OnScript(s.actors[j]) && !LacksFunds(s.actors[j].pc)
    requires LacksFunds(Local(s.store, s.clock, s.nextEntry, s.actors[j], pinOk, active, true).pc)
    ensures Short(s, j)
  {
    if s.actors[j].pc == Check {
      CheckReadsBalance(s, j);
    } else if s.actors[j].pc == Update {
      WriteStep(s.store, s.nextEntry, s.actors[j]);
    } else {
      OnlyChecksRefuse(s.store, s.clock, s.nextEntry, s.actors[j], pinOk, active);
    }
  }

  lemma RefusalWasShort(s: State, e: Event, j: nat)
    requires LedgerInv(s.store) && ActorsOk(s) && Legal(s, e) && j < |s.actors|
    requires s.actors[j].call.Send? && 0 < s.actors[j].call.amount
    requires LacksFunds(Do(s, e, true).actors[j].pc)
    ensures LacksFunds(s.actors[j].pc) || Short(s, j)
  {
    if Concerns(e, j) && e.Act? && !LacksFunds(s.actors[j].pc) {
      StepWasShort(s, j, e.pinOk, e.active);
    }
  }

  lemma LastRefusal(es: seq<Event>, j: nat, o: Order)
    requires es != [] && Exec(es, true).Some? && IsSend(Exec(es, true).value, j, o) && 0 < o.amount
    requires j < |Exec(es, true).value.actors| && LacksFunds(Exec(es, true).value.actors[j].pc)
    ensures var s := Exec(es[..|es| - 1], true).value;
            && IsSend(s, j, o)
            && (Short(s, j) || (j < |s.actors| && LacksFunds(s.actors[j].pc)))
  {
    var s, e := Exec(es[..|es| - 1], true).value, es[|es| - 1];
    SameSend(s, e, j, o);
    assert LedgerInv(s.store) && ActorsOk(s) by {
      ReachableInv(es[..|es| - 1]);
    }
    if j < |s.actors| {
      RefusalWasShort(s, e, j);
    }
  }

  /** A send refused for lack of funds once stood at its check with too low a committed balance. */
  lemma {:induction false} FundsMeansShort(es: seq<Event>, j: nat, o: Order)
    requires Exec(es, true).Some? && j < |Exec(es, true).value.actors| && IsSend(Exec(es, true).value, j, o)
    requires 0 < o.amount && LacksFunds(Exec(es, true).value.actors[j].pc)
    ensures StoodShort(es, j)
  {
    if es != [] {
      LastRefusal(es, j, o);
      if !Short(Exec(es[..|es| - 1], true).value, j) {
        FundsMeansShort(es[..|es| - 1], j, o);
      }
    }
  }

  /** From such a check on, the send can only be refused or cut off. */
  predicate Doomed(s: State, j: nat) {
    || Short(s, j)
    || (j < |s.actors| && (LacksFunds(s.actors[j].pc) || s.actors[j].pc == Done(Failed(Disconnected))))
  }

  lemma ShortHolds(s: State, e: Event, j: nat)
    requires Inv(s) && Legal(s, e) && Short(s, j) && !Concerns(e, j)
    ensures Short(Do(s, e, true), j)
  {
    var a := s.actors[j];
    var w := s.store.walletOf[a.call.sender];
    assert ActorsOk(s);
    assert ActorOk(s.store, s.nextEntry, a);
    assert w in a.held;
    EventStoreGrows(s, e);
    LockedBalanceStable(s, e, j, w);
  }

  lemma DoomStays(s: State, e: Event, j: nat)
    requires Inv(s) && Legal(s, e) && Doomed(s, j) && j < |s.actors| && s.actors[j].call.Send?
    requires 0 < s.actors[j].call.amount
    ensures Doomed(Do(s, e, true), j)
  {
    if Short(s, j) {
      if Concerns(e, j) {
        ShortEnds(s, e, j);
      } else {
        ShortHolds(s, e, j);
      }
    }
  }

  lemma ShortEnds(s: State, e: Event, j: nat)
    requires ActorsOk(s) && Legal(s, e) && Concerns(e, j) && Short(s, j) && 0 < s.actors[j].call.amount
    ensures Doomed(Do(s, e, true), j)
  {
    if e.Act? {
      CheckReadsBalance(s, j);
    }
  }

  lemma {:induction false} ShortIsDoomed(es: seq<Event>, j: nat, o: Order)
    requires Exec(es, true).Some? && IsSend(Exec(es, true).value, j, o) && 0 < o.amount && StoodShort(es, j)
    ensures Doomed(Exec(es, true).value, j)
  {
    if !Short(Exec(es, true).value, j) {
      var s, e := Exec(es[..|es| - 1], true).value, es[|es| - 1];
      SameSend(s, e, j, o);
      ShortIsDoomed(es[..|es| - 1], j, o);
      ReachableInv(es[..|es| - 1]);
      DoomStays(s, e, j);
    }
  }

  // --- being cut off -----------------------------------------------------------------

  predicate CutOff(s: State, j: nat) {
    j < |s.actors| && s.actors[j].pc == Done(Failed(Disconnected))
  }

  lemma LocalNeverCuts(st: Store, clock: int, n: EntryId, a: Actor, pinOk: bool, active: bool)
    requires OnScript(a) && a.call.Send? && !a.pc.Done? && a.pc != Unwind(Disconnected)
    ensures var pc := Local(st, clock, n, a, pinOk, active, true).pc;
            pc != Unwind(Disconnected) && pc != Done(Failed(Disconnected))
  {
  }

  /** A send answers Disconnected exactly when its connection was lost before it ended. */
  lemma {:induction false} CutIsAbandon(es: seq<Event>, j: nat, o: Order)
    requires Exec(es, true).Some? && IsSend(Exec(es, true).value, j, o)
    ensures CutOff(Exec(es, true).value, j) <==> Abandon(j) in es
    ensures j < |Exec(es, true).value.actors| ==> Exec(es, true).value.actors[j].pc != Unwind(Disconnected)
  {
    if es != [] {
      var s, e := Exec(es[..|es| - 1], true).value, es[|es| - 1];
      assert es == es[..|es| - 1] + [e];
      SameSend(s, e, j, o);
      CutIsAbandon(es[..|es| - 1], j, o);
      if j < |s.actors| && e.Act? && e.actor == j {
        LocalNeverCuts(s.store, s.clock, s.nextEntry, s.actors[j], e.pinOk, e.active);
      }
    }
  }

  // --- the theorem ------------------------------------------------------------------

  /** The row of a send that was answered with a transaction. */
  lemma SentRow(es: seq<Event>, i: nat) returns (k: nat, l: Logged)
    requires Exec(es, true).Some? && i < |Exec(es, true).value.actors|
    requires var a := Exec(es, true).value.actors[i]; a.call.Send? && a.pc.Done? && a.pc.outcome.Sent?
    ensures var s := Exec(es, true).value;
            && l.call == s.actors[i].call && l.actor == i && s.actors[i].pc.outcome == Sent(i)
            && k < |s.store.txns| && Sends(s.store, l, s.store.txns[k])
  {
    var s := Exec(es, true).value;
    assert LogFits(s) by {
      ReachableInv(es);
    }
    SendsAreWritten(es);
    var m :| 0 <= m < |s.log| && s.log[m].actor == i;
    l := s.log[m];
    assert SendWritten(s.store, l);
    k :| 0 <= k < |s.store.txns| && Sends(s.store, l, s.store.txns[k]);
  }

  /** The original is in place: the key is the original's, and used for nothing else. */
  lemma OriginalClears(es: seq<Event>, i: nat, o: Order)
    requires Exec(es, true).Some? && i < |Exec(es, true).value.actors|
    requires var a := Exec(es, true).value.actors[i];
             a.call.Send? && SendOrder(a.call) == o && a.pc.Done? && a.pc.outcome.Sent?
    requires o.key.Some? && o.key.value != ""
    ensures var s := Exec(es, true).value;
            && s.actors[i].pc.outcome == Sent(i) && Clear(s.store, o)
            && forall t <- s.store.txns :: Carries(t, o.initiator, o.key) ==> t.id == i
  {
    var s := Exec(es, true).value;
    var k, l := SentRow(es, i);
    ReachableInv(es);
    forall t <- s.store.txns | Carries(t, o.initiator, o.key) ensures t == s.store.txns[k] {
      OneCarrier(s.store.txns, s.store.txns[k], t);
    }
  }

  /** Two sends with one non-empty key, amount and recipient: i has answered with a new transaction, j has
      ended, and both users were there when j began, after the first k events. */
  ghost predicate Retried(es: seq<Event>, k: nat, i: nat, j: nat) {
    && k <= |es| && Exec(es, true).Some? && Exec(es[..k], true).Some?
    && i < |Exec(es, true).value.actors| && j < |Exec(es, true).value.actors| && i != j
    && var a, b := Exec(es, true).value.actors[i], Exec(es, true).value.actors[j];
       && a.call.Send? && a.call == b.call && a.call.key.Some? && a.call.key.value != ""
       && a.pc.Done? && a.pc.outcome.Sent? && b.pc.Done?
       && |Exec(es[..k], true).value.actors| <= j && Known(Exec(es[..k], true).value.store, SendOrder(b.call))
  }

  /** All that a retry can answer: the original as a replay, or a refusal with what it read for it. */
  lemma RetryAnswers(es: seq<Event>, k: nat, i: nat, j: nat)
    requires Retried(es, k, i, j)
    ensures var a, b := Exec(es, true).value.actors[i], Exec(es, true).value.actors[j];
            if b.pc.outcome == Replayed(a.pc.outcome.txn) then b.x.active && b.x.pinOk
            else b.pc.outcome.Failed? && (Refusable(b, b.pc.outcome.error) || b.pc.outcome.error == Disconnected)
  {
    var s := Exec(es, true).value;
    var o := SendOrder(s.actors[j].call);
    OriginalClears(es, i, o);
    AnswersAllowed(es, k, j, o);
    if s.actors[j].pc.outcome.Sent? {
      var m, l := SentRow(es, j);
      assert Carries(s.store.txns[m], o.initiator, o.key);
    } else if s.actors[j].pc.outcome.Replayed? {
      AtMostOnce(es);
      var m :| 0 <= m < |s.store.txns| && s.store.txns[m].id == s.actors[j].pc.outcome.txn
               && Carries(s.store.txns[m], o.initiator, o.key);
    }
  }

  /** The documentation promises that a retry returns the original transaction. It does exactly when the
      recipient was active and the PIN right when it asked, its connection was not lost, and it never
      stood at its balance check while the sender's committed balance was below the amount. */
  lemma RetryReturnsOriginal(es: seq<Event>, k: nat, i: nat, j: nat)
    requires Retried(es, k, i, j)
    ensures var a, b := Exec(es, true).value.actors[i], Exec(es, true).value.actors[j];
            b.pc.outcome == Replayed(a.pc.outcome.txn) <==>
            b.x.active && b.x.pinOk && Abandon(j) !in es && !StoodShort(es, j)
  {
    var s := Exec(es, true).value;
    var b := s.actors[j];
    var o := SendOrder(b.call);
    RetryAnswers(es, k, i, j);
    OriginalClears(es, i, o);
    CutIsAbandon(es, j, o);
    if StoodShort(es, j) {
      ShortIsDoomed(es, j, o);
    }
    if LacksFunds(b.pc) {
      FundsMeansShort(es, j, o);
    }
  }
}
