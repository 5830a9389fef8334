/** Exactly when a retried transfer returns its original. */
module Retries {
  import opened Tables
  import opened Ledger
  import opened Atomic
  import opened Interleaving
  import opened Invariant
  import opened Steps
  import opened Reachability

  /** The transfer's original is committed: same sender, same non-empty key, same amount and recipient. */
  predicate OriginalIn(st: Store, o: Order, t: Txn) {
    && t in st.txns && Carries(t, o.initiator, o.key) && o.key.value != ""
    && Known(st, o) && o.initiator != o.to && SameRequest(t, o.amount, st.walletOf[o.to]) && 0 < o.amount
  }

  /** A retry that looks after the commit returns the original at once. */
  lemma LateLookupReplays(st: Store, n: EntryId, a: Actor, t: Txn)
    requires ActorOk(st, n, a) && a.pc == Lookup && a.call.Send? && UniqueKeys(st.txns)
    requires OriginalIn(st, SendOrder(a.call), t)
    ensures LookupStep(st, a) == Finish(a, Replayed(t.id))
  {
    var o := SendOrder(a.call);
    OneCarrier(st.txns, FindReplay(st.txns, o.initiator, o.key).value, t);
  }

  /** Where a retry that reached the balance check can be, given whether the balance covered it. */
  predicate OnTrack(a: Actor, t: Txn, covered: bool) {
    match a.pc
    case Check => covered <==> a.plan.amount <= Cached(a, a.plan.src)
    case Insert => covered
    case Winner => covered
    case Unwind(e) => !covered && e == InsufficientFunds
    case Done(o) => o == Failed(Disconnected) || o == if covered then Replayed(t.id) else Failed(InsufficientFunds)
    case _ => false
  }

  lemma OwnStepOnTrack(st: Store, clock: int, n: EntryId, a: Actor, t: Txn, covered: bool, pinOk: bool, active: bool)
    requires ActorOk(st, n, a) && a.call.Send? && OnTrack(a, t, covered) && !a.pc.Done?
    requires UniqueKeys(st.txns) && WalletsOk(st) && OriginalIn(st, SendOrder(a.call), t)
    ensures OnTrack(Local(st, clock, n, a, pinOk, active, true), t, covered)
  {
    var o := SendOrder(a.call);
    match a.pc
    case Check =>
    case Insert => InsertHits(st, n, a, t);
    case Winner => OneCarrier(st.txns, FindReplay(st.txns, a.plan.initiator, a.plan.key).value, t);
    case Unwind(_) =>
  }

  lemma InsertHits(st: Store, n: EntryId, a: Actor, t: Txn)
    requires ActorOk(st, n, a) && a.call.Send? && a.pc == Insert
    requires WalletsOk(st) && OriginalIn(st, SendOrder(a.call), t)
    ensures InsertStep(st.txns, a).pc == Winner
  {
    var k :| 0 <= k < |st.txns| && st.txns[k] == t;
    assert Carries(st.txns[k], a.plan.initiator, a.plan.key);
  }

  lemma OriginalStays(s: State, e: Event, o: Order, t: Txn)
    requires Inv(s) && Legal(s, e) && OriginalIn(s.store, o, t)
    ensures OriginalIn(Do(s, e, true).store, o, t)
  {
    if e.Act? && s.actors[e.actor].pc == Commit {
      assert ActorsOk(s);
      assert ActorOk(s.store, s.nextEntry, s.actors[e.actor]);
      CommitTouches(s.store, s.nextEntry, s.actors[e.actor]);
    }
  }

  predicate Tracked(s: State, i: nat, t: Txn, covered: bool) {
    && i < |s.actors| && s.actors[i].call.Send?
    && OnTrack(s.actors[i], t, covered) && OriginalIn(s.store, SendOrder(s.actors[i].call), t)
  }

  lemma OwnTurn(s: State, e: Event, i: nat, t: Txn, covered: bool)
    requires ActorsOk(s) && UniqueKeys(s.store.txns) && WalletsOk(s.store)
    requires Legal(s, e) && Tracked(s, i, t, covered) && e.Act? && e.actor == i
    ensures var s' := Do(s, e, true);
            i < |s'.actors| && s'.actors[i].call == s.actors[i].call && OnTrack(s'.actors[i], t, covered)
  {
    assert ActorOk(s.store, s.nextEntry, s.actors[i]);
    OwnStepOnTrack(s.store, s.clock, s.nextEntry, s.actors[i], t, covered, e.pinOk, e.active);
    LocalOutcome(s.store, s.clock, s.nextEntry, s.actors[i], e.pinOk, e.active);
  }

  lemma OthersTurn(s: State, e: Event, i: nat)
    requires Legal(s, e) && i < |s.actors| && !Concerns(e, i)
    ensures i < |Do(s, e, true).actors| && Do(s, e, true).actors[i] == s.actors[i]
  {
  }

  lemma EventOnTrack(s: State, e: Event, i: nat, t: Txn, covered: bool)
    requires Inv(s) && Legal(s, e) && Tracked(s, i, t, covered)
    ensures Tracked(Do(s, e, true), i, t, covered)
  {
    OriginalStays(s, e, SendOrder(s.actors[i].call), t);
    if e.Act? && e.actor == i {
      OwnTurn(s, e, i, t, covered);
    } else if !Concerns(e, i) {
      OthersTurn(s, e, i);
    }
  }

  predicate TrackedAfter(es: seq<Event>, i: nat, t: Txn, covered: bool) {
    Exec(es, true).Some? && Tracked(Exec(es, true).value, i, t, covered)
  }

  lemma LastEventOnTrack(es: seq<Event>, i: nat, t: Txn, covered: bool)
    requires es != [] && Exec(es, true).Some? && TrackedAfter(es[..|es| - 1], i, t, covered)
    ensures TrackedAfter(es, i, t, covered)
  {
    ReachableInv(es[..|es| - 1]);
    EventOnTrack(Exec(es[..|es| - 1], true).value, es[|es| - 1], i, t, covered);
  }

  lemma {:induction false} TrackKept(es: seq<Event>, k: nat, i: nat, t: Txn, covered: bool)
    requires k <= |es| && Exec(es, true).Some? && TrackedAfter(es[..k], i, t, covered)
    ensures TrackedAfter(es, i, t, covered)
    decreases |es|
  {
    if k < |es| {
      assert es[..|es| - 1][..k] == es[..k];
      TrackKept(es[..|es| - 1], k, i, t, covered);
      LastEventOnTrack(es, i, t, covered);
    } else {
      assert es[..k] == es;
    }
  }

  /** A retry that holds both wallet locks when its original is committed returns the original if and
      only if the sender's committed balance still covers the amount; otherwise it is refused for lack
      of funds. This holds over every continuation in which the retry ends, unless it is cut off. */
  lemma RetryAnswer(es: seq<Event>, k: nat, i: nat, t: Txn)
    requires k <= |es| && Exec(es, true).Some? && Exec(es[..k], true).Some?
    requires var s := Exec(es[..k], true).value;
             && i < |s.actors| && s.actors[i].call.Send? && s.actors[i].pc == Check
             && OriginalIn(s.store, SendOrder(s.actors[i].call), t)
    requires i < |Exec(es, true).value.actors| && Exec(es, true).value.actors[i].pc.Done?
    ensures var s, o := Exec(es[..k], true).value, SendOrder(Exec(es[..k], true).value.actors[i].call);
            && s.store.walletOf[o.initiator] in s.store.wallets
            && var answer := Exec(es, true).value.actors[i].pc.outcome;
               answer == Failed(Disconnected) ||
               answer == if o.amount <= s.store.wallets[s.store.walletOf[o.initiator]].balance then Replayed(t.id)
                         else Failed(InsufficientFunds)
  {
    var s := Exec(es[..k], true).value;
    ReachableInv(es[..k]);
    assert ActorsOk(s);
    assert ActorOk(s.store, s.nextEntry, s.actors[i]);
    var a := s.actors[i];
    assert a.plan.src in a.held;
    TrackKept(es, k, i, t, a.plan.amount <= Cached(a, a.plan.src));
  }
}
