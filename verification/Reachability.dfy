/** The invariant holds after every schedule. */
module Reachability {
  import opened Tables
  import opened Atomic
  import opened Interleaving
  import opened Invariant
  import opened Steps

  lemma StartInv()
    ensures Inv(START)
  {
    FreshStoreInv();
  }

  // --- a new transaction ---------------------------------------------------

  lemma NewcomerOk(st: Store, n: EntryId, c: Call, cache: map<WalletId, int>, index: nat, clock: int)
    requires FreshCall(st, c)
    ensures ActorOk(st, n, Newcomer(c, cache, index, clock))
  {
  }

  lemma NewcomerApart(a: Actor, c: Call, cache: map<WalletId, int>, index: nat, clock: int)
    requires DistinctIds(a.call, c)
    ensures Apart(a, Newcomer(c, cache, index, clock)) && Apart(Newcomer(c, cache, index, clock), a)
  {
  }

  lemma BeginApart(s: State, c: Call, cache: map<WalletId, int>)
    requires AllApart(s) && Legal(s, Begin(c, cache))
    ensures AllApart(Do(s, Begin(c, cache), true))
  {
    var s' := Do(s, Begin(c, cache), true);
    forall i, j | 0 <= i < |s'.actors| && 0 <= j < |s'.actors| && i != j ensures Apart(s'.actors[i], s'.actors[j]) {
      if i < |s.actors| && j < |s.actors| {
        assert Apart(s.actors[i], s.actors[j]);
      } else {
        NewcomerApart(s.actors[if i < |s.actors| then i else j], c, cache, |s.actors|, s.clock);
      }
    }
  }

  lemma BeginKeeps(s: State, c: Call, cache: map<WalletId, int>)
    requires Inv(s) && Legal(s, Begin(c, cache))
    ensures Inv(Do(s, Begin(c, cache), true))
  {
    var s' := Do(s, Begin(c, cache), true);
    BeginApart(s, c, cache);
    NewcomerOk(s.store, s.nextEntry, c, cache, |s.actors|, s.clock);
    BeginBooks(s, c, cache);
  }

  lemma BeginBooks(s: State, c: Call, cache: map<WalletId, int>)
    requires TxnIdsFit(s) && ClocksFit(s) && LogFits(s) && Legal(s, Begin(c, cache))
    ensures var s' := Do(s, Begin(c, cache), true);
            TxnIdsFit(s') && ClocksFit(s') && LogFits(s')
  {
  }

  // --- a step of one transaction -------------------------------------------

  lemma StepApart(s: State, i: nat, pinOk: bool, active: bool)
    requires ActorsOk(s) && AllApart(s) && Ready(s, i)
    ensures AllApart(ActOn(s, i, pinOk, active, true))
  {
    var s' := ActOn(s, i, pinOk, active, true);
    forall j, k | 0 <= j < |s'.actors| && 0 <= k < |s'.actors| && j != k ensures Apart(s'.actors[j], s'.actors[k]) {
      if j != i && k != i {
        assert Apart(s.actors[j], s.actors[k]);
      } else {
        var o := if j == i then k else j;
        assert Apart(s.actors[i], s.actors[o]);
        assert !WaitsFor(s, i, o);
        LocalApart(s.store, s.clock, s.nextEntry, s.actors[i], s.actors[o], pinOk, active);
      }
    }
  }

  predicate Quietly(a: Actor, a': Actor, clock: int) {
    && a'.call == a.call && a'.x.ids.txn == a.x.ids.txn
    && (a'.x.now == a.x.now || a'.x.now == clock)
    && (a'.pc.Done? ==> !Succeeded(a'.pc.outcome))
  }

  lemma EarlyOutcome(st: Store, clock: int, n: EntryId, a: Actor, pinOk: bool, active: bool)
    requires OnScript(a) && a.pc in {Pin, Row, Judge, Phone, Insertion, Draft, Lookup, Winner}
    ensures Quietly(a, Local(st, clock, n, a, pinOk, active, true), clock)
  {
  }

  lemma LateOutcome(st: Store, clock: int, n: EntryId, a: Actor, pinOk: bool, active: bool)
    requires OnScript(a) && (Level(a.pc) < 7 || a.pc == Mark || a.pc.Unwind?)
    ensures Quietly(a, Local(st, clock, n, a, pinOk, active, true), clock)
  {
  }

  /** Without a commit a transaction ends only in a refusal or a replay. */
  lemma LocalOutcome(st: Store, clock: int, n: EntryId, a: Actor, pinOk: bool, active: bool)
    requires OnScript(a) && a.pc != Commit && !a.pc.Done?
    ensures Quietly(a, Local(st, clock, n, a, pinOk, active, true), clock)
  {
    if a.pc in {Pin, Row, Judge, Phone, Insertion, Draft, Lookup, Winner} {
      EarlyOutcome(st, clock, n, a, pinOk, active);
    } else {
      LateOutcome(st, clock, n, a, pinOk, active);
    }
  }

  lemma BooksKeep(s: State, s': State, i: nat)
    requires TxnIdsFit(s) && ClocksFit(s) && EntryIdsFit(s) && LogFits(s) && i < |s.actors| && !s.actors[i].pc.Done?
    requires s'.store == s.store && s'.log == s.log && s.nextEntry <= s'.nextEntry && s'.clock == s.clock
    requires |s'.actors| == |s.actors| && forall j :: 0 <= j < |s.actors| && j != i ==> s'.actors[j] == s.actors[j]
    requires s'.actors[i].call == s.actors[i].call && s'.actors[i].x.ids.txn == i && s'.actors[i].x.now <= s.clock
    requires s'.actors[i].pc.Done? ==> !Succeeded(s'.actors[i].pc.outcome)
    ensures TxnIdsFit(s') && ClocksFit(s') && EntryIdsFit(s') && LogFits(s')
  {
  }

  lemma QuietStepBooks(s: State, i: nat, pinOk: bool, active: bool)
    requires TxnIdsFit(s) && ClocksFit(s) && EntryIdsFit(s) && LogFits(s) && Ready(s, i) && s.actors[i].pc != Commit
    ensures var s' := ActOn(s, i, pinOk, active, true);
            TxnIdsFit(s') && ClocksFit(s') && EntryIdsFit(s') && LogFits(s')
  {
    LocalOutcome(s.store, s.clock, s.nextEntry, s.actors[i], pinOk, active);
    BooksKeep(s, ActOn(s, i, pinOk, active, true), i);
  }

  lemma QuietStepActors(s: State, i: nat, pinOk: bool, active: bool)
    requires ActorsOk(s) && Ground(s.store, s.nextEntry) && Ready(s, i) && s.actors[i].pc != Commit
    ensures ActorsOk(ActOn(s, i, pinOk, active, true))
  {
    var s' := ActOn(s, i, pinOk, active, true);
    forall j | 0 <= j < |s'.actors| ensures ActorOk(s'.store, s'.nextEntry, s'.actors[j]) {
      if j == i {
        LocalKeeps(s.store, s.clock, s.nextEntry, s.actors[i], pinOk, active);
      } else {
        LaterIds(s.store, s.nextEntry, s'.nextEntry, s.actors[j]);
      }
    }
  }

  lemma QuietStepKeeps(s: State, i: nat, pinOk: bool, active: bool)
    requires Inv(s) && Ready(s, i) && s.actors[i].pc != Commit
    ensures Inv(ActOn(s, i, pinOk, active, true))
  {
    StepApart(s, i, pinOk, active);
    QuietStepBooks(s, i, pinOk, active);
    QuietStepActors(s, i, pinOk, active);
  }

  // --- a commit ------------------------------------------------------------

  lemma FinishOk(st: Store, n: EntryId, a: Actor, o: Outcome)
    requires a.savepoint == NOTHING && !o.Replayed?
    ensures ActorOk(st, n, Finish(a, o))
  {
  }

  lemma CommitActors(s: State, i: nat, pinOk: bool, active: bool)
    requires ActorsOk(s) && AllApart(s) && Ready(s, i) && s.actors[i].pc == Commit
    ensures ActorsOk(ActOn(s, i, pinOk, active, true))
  {
    var s' := ActOn(s, i, pinOk, active, true);
    CommitTouches(s.store, s.nextEntry, s.actors[i]);
    forall j | 0 <= j < |s'.actors| ensures ActorOk(s'.store, s'.nextEntry, s'.actors[j]) {
      if j == i {
        FinishOk(s'.store, s.nextEntry, s.actors[i], Result(s.actors[i]));
      } else {
        assert Apart(s.actors[j], s.actors[i]);
        Frame(s.store, s'.store, s.nextEntry, s.actors[j], s.actors[i]);
      }
    }
  }

  lemma CommitIds(s: State, i: nat, pinOk: bool, active: bool)
    requires TxnIdsFit(s) && ClocksFit(s) && EntryIdsFit(s) && Ready(s, i) && s.actors[i].pc == Commit
    requires ActorOk(s.store, s.nextEntry, s.actors[i])
    ensures var s' := ActOn(s, i, pinOk, active, true);
            TxnIdsFit(s') && ClocksFit(s') && EntryIdsFit(s')
  {
    CommitAdds(s.store, s.nextEntry, s.actors[i]);
    CommittedIds(s, ActOn(s, i, pinOk, active, true), i);
  }

  lemma CommittedIds(s: State, s': State, i: nat)
    requires TxnIdsFit(s) && ClocksFit(s) && EntryIdsFit(s) && i < |s.actors|
    requires s'.clock == s.clock && s'.nextEntry == s.nextEntry && |s'.actors| == |s.actors|
    requires s'.actors[i].pc.Done? && s'.actors[i].x == s.actors[i].x
    requires forall j :: 0 <= j < |s.actors| && j != i ==> s'.actors[j] == s.actors[j]
    requires s'.store.txns == s.store.txns ||
             (|s'.store.txns| == |s.store.txns| + 1 && s'.store.txns[..|s.store.txns|] == s.store.txns
              && s'.store.txns[|s.store.txns|].id == i)
    requires s.store.entries <= s'.store.entries
    requires forall k :: |s.store.entries| <= k < |s'.store.entries| ==> s'.store.entries[k].id < s.nextEntry
    ensures TxnIdsFit(s') && ClocksFit(s') && EntryIdsFit(s')
  {
    forall k | 0 <= k < |s'.store.txns|
      ensures s'.store.txns[k].id < |s'.actors| && s'.actors[s'.store.txns[k].id].pc.Done?
    {
      if k < |s.store.txns| {
        assert s'.store.txns[k] == s'.store.txns[..|s.store.txns|][k] == s.store.txns[k];
      }
    }
    assert forall k :: 0 <= k < |s.store.entries| ==> s'.store.entries[k] == s.store.entries[k];
  }

  lemma CommitLogged(s: State, s': State, l: Logged)
    requires LogFits(s) && l.actor < |s.actors| && !s.actors[l.actor].pc.Done? && Succeeded(l.outcome)
    requires s'.log == s.log + [l] && |s'.actors| == |s.actors|
    requires s'.actors[l.actor].call == l.call && s'.actors[l.actor].pc == Done(l.outcome)
    requires forall j :: 0 <= j < |s.actors| && j != l.actor ==> s'.actors[j] == s.actors[j]
    ensures LogFits(s')
  {
    assert s'.log[|s.log|] == l;
    forall j | 0 <= j < |s'.actors| && s'.actors[j].pc.Done? && Succeeded(s'.actors[j].pc.outcome)
      ensures exists k :: 0 <= k < |s'.log| && s'.log[k].actor == j
    {
      if j != l.actor {
        var k :| 0 <= k < |s.log| && s.log[k].actor == j;
        assert s'.log[k].actor == j;
      }
    }
  }

  lemma CommitLog(s: State, i: nat, pinOk: bool, active: bool)
    requires LogFits(s) && Ready(s, i) && s.actors[i].pc == Commit
    ensures LogFits(ActOn(s, i, pinOk, active, true))
  {
    var a := s.actors[i];
    CommitLogged(s, ActOn(s, i, pinOk, active, true), Logged(i, a.call, a.x, Result(a)));
  }

  /** A commit is the atomic operation of its call, and the ids it used are fresh. */
  lemma CommitAtomic(s: State, i: nat)
    requires Inv(s) && i < |s.actors| && s.actors[i].pc == Commit
    ensures var a := s.actors[i];
            && FreshCall(s.store, a.call) && FreshIds(s.store, a.call, a.x)
            && Run(s.store, a.call, a.x) == (Overlay(s.store, a.staged), Result(a))
  {
    var a := s.actors[i];
    assert ActorOk(s.store, s.nextEntry, a);
    CommitIsRun(s.store, s.nextEntry, a);
    if a.call.Approve? {
      assert RequestOk(s.store, a.call.id);
    }
    CommitIdsFresh(s.store, s.nextEntry, a);
  }

  lemma CommitStepKeeps(s: State, i: nat, pinOk: bool, active: bool)
    requires Inv(s) && Ready(s, i) && s.actors[i].pc == Commit
    ensures Inv(ActOn(s, i, pinOk, active, true))
  {
    StepApart(s, i, pinOk, active);
    CommitActors(s, i, pinOk, active);
    CommitIds(s, i, pinOk, active);
    CommitLog(s, i, pinOk, active);
    CommitAtomic(s, i);
    RunKeepsInv(s.store, s.actors[i].call, s.actors[i].x);
  }

  // --- every schedule ------------------------------------------------------

  lemma DoKeeps(s: State, e: Event)
    requires Inv(s) && Legal(s, e)
    ensures Inv(Do(s, e, true))
  {
    match e
    case Begin(c, cache) => BeginKeeps(s, c, cache);
    case Tick(_) => TickKeeps(s, e.now);
    case Abandon(i) => AbandonKeeps(s, i);
    case Act(i, pinOk, active) =>
      if s.actors[i].pc == Commit {
        CommitStepKeeps(s, i, pinOk, active);
      } else {
        QuietStepKeeps(s, i, pinOk, active);
      }
  }

  lemma AbandonApart(s: State, i: nat)
    requires AllApart(s) && Legal(s, Abandon(i))
    ensures AllApart(Do(s, Abandon(i), true))
  {
    var s' := Do(s, Abandon(i), true);
    forall j, k | 0 <= j < |s'.actors| && 0 <= k < |s'.actors| && j != k ensures Apart(s'.actors[j], s'.actors[k]) {
      assert Apart(s.actors[j], s.actors[k]);
    }
  }

  lemma AbandonActors(s: State, i: nat)
    requires ActorsOk(s) && Legal(s, Abandon(i))
    ensures ActorsOk(Do(s, Abandon(i), true))
  {
    assert ActorOk(s.store, s.nextEntry, s.actors[i]);
    FinishOk(s.store, s.nextEntry, s.actors[i], Failed(Disconnected));
  }

  lemma AbandonKeeps(s: State, i: nat)
    requires Inv(s) && Legal(s, Abandon(i))
    ensures Inv(Do(s, Abandon(i), true))
  {
    AbandonApart(s, i);
    AbandonActors(s, i);
    BooksKeep(s, Do(s, Abandon(i), true), i);
  }

  lemma TickKeeps(s: State, now: int)
    requires Inv(s) && Legal(s, Tick(now))
    ensures Inv(Do(s, Tick(now), true))
  {
  }

  lemma {:induction false} ReachableInv(es: seq<Event>)
    requires Exec(es, true).Some?
    ensures Inv(Exec(es, true).value)
  {
    if es == [] {
      StartInv();
    } else {
      ReachableInv(es[..|es| - 1]);
      DoKeeps(Exec(es[..|es| - 1], true).value, es[|es| - 1]);
    }
  }
}
