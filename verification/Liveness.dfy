/** No deadlock, progress, and termination of the money paths. */
module Liveness {
  import opened Tables
  import opened Ledger
  import opened Interleaving
  import opened Invariant
  import opened Reachability

  // --- one global rank ------------------------------------------------------

  /** Phone index, then request rows, then wallets by ascending id, then the idempotency index. */
  function Rank(r: Resource): int {
    match r
    case PhoneSlot(_) => 0
    case RowLock(_) => 1
    case WalletLock(w) => 2 + w
    case KeySlot(_, _) => 2 + ID_LIMIT
  }

  /** Whoever is waited for never wants anything at or below the rank it is holding. */
  lemma WaitsClimb(st: Store, n: EntryId, r: Resource, b: Actor)
    requires ActorOk(st, n, b) && Holds(b, r) && Wants(st, b).Some?
    ensures Rank(r) < Rank(Wants(st, b).value)
  {
  }

  /** The rank a transaction waits at; above everything when it wants nothing. */
  function WaitRank(s: State, i: nat): int
    requires i < |s.actors| && OnScript(s.actors[i])
  {
    if Wants(s.store, s.actors[i]).Some? then Rank(Wants(s.store, s.actors[i]).value) else 3 + ID_LIMIT
  }

  lemma RankAscends(s: State, i: nat, j: nat)
    requires ActorsOk(s) && i < |s.actors| && j < |s.actors| && OnScript(s.actors[i]) && WaitsFor(s, i, j)
    ensures OnScript(s.actors[j]) && WaitRank(s, i) < WaitRank(s, j)
  {
    assert ActorOk(s.store, s.nextEntry, s.actors[j]);
    if Wants(s.store, s.actors[j]).Some? {
      WaitsClimb(s.store, s.nextEntry, Wants(s.store, s.actors[i]).value, s.actors[j]);
    }
  }

  predicate Edge(s: State, i: nat, j: nat) {
    i < |s.actors| && j < |s.actors| && OnScript(s.actors[i]) && WaitsFor(s, i, j)
  }

  predicate WaitPath(s: State, path: seq<nat>) {
    forall k :: 0 <= k < |path| - 1 ==> Edge(s, path[k], path[k + 1])
  }

  predicate Climbs(s: State, i: nat, j: nat) {
    Edge(s, i, j) ==> OnScript(s.actors[j]) && WaitRank(s, i) < WaitRank(s, j)
  }

  lemma {:induction false} RanksAscend(s: State, path: seq<nat>, k: nat)
    requires 1 <= k < |path| && WaitPath(s, path) && forall i: nat, j: nat :: Climbs(s, i, j)
    ensures var first, last := path[0], path[k];
            first < |s.actors| && OnScript(s.actors[first]) && last < |s.actors| && OnScript(s.actors[last])
            && WaitRank(s, first) < WaitRank(s, last)
  {
    assert Edge(s, path[k - 1], path[k]) && Climbs(s, path[k - 1], path[k]);
    if k > 1 {
      RanksAscend(s, path, k - 1);
    }
  }

  /** The wait-for graph has no cycle. */
  lemma NoWaitCycle(s: State, path: seq<nat>)
    requires ActorsOk(s) && |path| >= 2 && WaitPath(s, path)
    ensures path[0] != path[|path| - 1]
  {
    forall i: nat, j: nat ensures Climbs(s, i, j) {
      if Edge(s, i, j) {
        RankAscends(s, i, j);
      }
    }
    RanksAscend(s, path, |path| - 1);
  }

  // --- progress -------------------------------------------------------------

  /** While some transaction is unfinished, some transaction can take a step. */
  lemma {:induction false} SomeoneReady(s: State, i: nat)
    requires ActorsOk(s) && i < |s.actors| && OnScript(s.actors[i]) && !s.actors[i].pc.Done?
    ensures exists j :: Ready(s, j)
    decreases 3 + ID_LIMIT - WaitRank(s, i)
  {
    if Blocked(s, i) {
      var j :| 0 <= j < |s.actors| && WaitsFor(s, i, j);
      RankAscends(s, i, j);
      assert ActorOk(s.store, s.nextEntry, s.actors[j]);
      SomeoneReady(s, j);
    } else {
      assert Ready(s, i);
    }
  }

  // --- termination ----------------------------------------------------------

  function StepsLeft(pc: Pc): nat {
    match pc
    case Pin => 19
    case Row => 19
    case Judge => 18
    case Phone => 18
    case Insertion => 17
    case Lookup => 16
    case LockLow => 15
    case LockHigh => 14
    case Check => 13
    case Insert => 12
    case Update => 11
    case Debit => 10
    case Credit => 9
    case Winner => 9
    case Mark => 3
    case Draft => 3
    case Commit => 2
    case Unwind(_) => 1
    case Done(_) => 0
  }

  lemma EarlyDescends(st: Store, clock: int, n: EntryId, a: Actor, pinOk: bool, active: bool)
    requires OnScript(a) && StepsLeft(a.pc) >= 16
    ensures StepsLeft(Local(st, clock, n, a, pinOk, active, true).pc) < StepsLeft(a.pc)
  {
  }

  lemma MiddleDescends(st: Store, clock: int, n: EntryId, a: Actor, pinOk: bool, active: bool)
    requires OnScript(a) && 11 <= StepsLeft(a.pc) < 16
    ensures StepsLeft(Local(st, clock, n, a, pinOk, active, true).pc) < StepsLeft(a.pc)
  {
  }

  lemma LateDescends(st: Store, clock: int, n: EntryId, a: Actor, pinOk: bool, active: bool)
    requires OnScript(a) && 0 < StepsLeft(a.pc) < 11
    ensures StepsLeft(Local(st, clock, n, a, pinOk, active, true).pc) < StepsLeft(a.pc)
  {
  }

  function Work(actors: seq<Actor>): nat {
    if actors == [] then 0 else Work(actors[..|actors| - 1]) + StepsLeft(actors[|actors| - 1].pc)
  }

  lemma {:induction false} WorkUpdate(actors: seq<Actor>, i: nat, a: Actor)
    requires i < |actors|
    ensures Work(actors[i := a]) == Work(actors) - StepsLeft(actors[i].pc) + StepsLeft(a.pc)
  {
    var n := |actors| - 1;
    if i < n {
      assert actors[i := a][..n] == actors[..n][i := a];
      WorkUpdate(actors[..n], i, a);
    } else {
      assert actors[i := a][..n] == actors[..n];
    }
  }

  function Begins(es: seq<Event>): nat {
    if es == [] then 0 else Begins(es[..|es| - 1]) + (if es[|es| - 1].Begin? then 1 else 0)
  }

  function Acts(es: seq<Event>): nat {
    if es == [] then 0 else Acts(es[..|es| - 1]) + (if es[|es| - 1].Act? then 1 else 0)
  }

  lemma EventWork(s: State, e: Event)
    requires Legal(s, e)
    ensures Work(Do(s, e, true).actors) + (if e.Act? then 1 else 0) <= Work(s.actors) + (if e.Begin? then 19 else 0)
  {
    var s' := Do(s, e, true);
    match e
    case Begin(_, _) => assert s'.actors[..|s.actors|] == s.actors;
    case Tick(_) =>
    case Abandon(i) => WorkUpdate(s.actors, i, s'.actors[i]);
    case Act(i, pinOk, active) =>
      WorkUpdate(s.actors, i, s'.actors[i]);
      if StepsLeft(s.actors[i].pc) >= 16 {
        EarlyDescends(s.store, s.clock, s.nextEntry, s.actors[i], pinOk, active);
      } else if StepsLeft(s.actors[i].pc) >= 11 {
        MiddleDescends(s.store, s.clock, s.nextEntry, s.actors[i], pinOk, active);
      } else {
        LateDescends(s.store, s.clock, s.nextEntry, s.actors[i], pinOk, active);
      }
  }

  /** However they interleave, n transactions take at most 19 n steps in all. */
  lemma {:induction false} StepsBounded(es: seq<Event>)
    requires Exec(es, true).Some?
    ensures Acts(es) + Work(Exec(es, true).value.actors) <= 19 * Begins(es)
  {
    if es != [] {
      StepsBounded(es[..|es| - 1]);
      EventWork(Exec(es[..|es| - 1], true).value, es[|es| - 1]);
    }
  }

  /** A run that cannot be continued by any transaction has finished them all. */
  lemma MaximalRunsFinish(es: seq<Event>)
    requires Exec(es, true).Some? && forall i: nat :: !Ready(Exec(es, true).value, i)
    ensures forall i :: 0 <= i < |Exec(es, true).value.actors| ==> Exec(es, true).value.actors[i].pc.Done?
  {
    var s := Exec(es, true).value;
    ReachableInv(es);
    forall i | 0 <= i < |s.actors| ensures s.actors[i].pc.Done? {
      if !s.actors[i].pc.Done? {
        SomeoneReady(s, i);
      }
    }
  }

  // --- nobody waits on the idempotency index ---------------------------------

  /** The lock that stands in front of the index. */
  predicate GuardsKey(st: Store, a: Actor, initiator: UserId) {
    initiator in st.walletOf && st.walletOf[initiator] in a.held
  }

  lemma StagedKeyGuarded(st: Store, n: EntryId, a: Actor)
    requires ActorOk(st, n, a) && a.staged.txn.Some? && a.staged.txn.value.key.Some?
    ensures GuardsKey(st, a, a.staged.txn.value.initiator)
  {
  }

  lemma InsertKeyGuarded(st: Store, n: EntryId, a: Actor)
    requires ActorOk(st, n, a) && a.pc == Insert && a.plan.key.Some?
    ensures GuardsKey(st, a, a.plan.initiator)
  {
  }

  lemma KeysApart(st: Store, n: EntryId, a: Actor, b: Actor)
    requires ActorOk(st, n, a) && ActorOk(st, n, b) && a.held !! b.held && a.pc == Insert && a.plan.key.Some?
    ensures !Holds(b, KeySlot(a.plan.initiator, a.plan.key))
  {
    InsertKeyGuarded(st, n, a);
    if b.staged.txn.Some? && b.staged.txn.value.key.Some? {
      StagedKeyGuarded(st, n, b);
    }
  }

  /** Same-key transactions are serialised by the sender's wallet lock before they reach uq_idem. */
  lemma NoIndexWait(s: State, i: nat, j: nat)
    requires ActorsOk(s) && AllApart(s) && i < |s.actors| && j < |s.actors| && i != j && s.actors[i].pc == Insert
    ensures !Edge(s, i, j)
  {
    assert Apart(s.actors[i], s.actors[j]);
    if s.actors[i].plan.key.Some? {
      KeysApart(s.store, s.nextEntry, s.actors[i], s.actors[j]);
    }
  }

  /** After a refusal by the index, the second lookup finds the winner whenever the key is not empty. */
  lemma WinnerFound(s: State, i: nat)
    requires Inv(s) && i < |s.actors| && s.actors[i].pc == Winner
    ensures var p := s.actors[i].plan;
            p.key.Some? && (FindReplay(s.store.txns, p.initiator, p.key).Some? <==> p.key.value != "")
  {
    assert ActorOk(s.store, s.nextEntry, s.actors[i]);
  }
}
