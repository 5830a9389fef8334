/** Why a transaction in flight is refused: what the same call, run alone on the tables as they stand at
    the deciding step, would answer too. */
module Refusals {
  import opened Tables
  import opened Ledger
  import opened Atomic
  import opened Interleaving
  import opened Invariant
  import opened Reachability
  import opened Supply

  /** What the call knows at this step: what the step itself reads, or what was read before. */
  function Knows(a: Actor, clock: int, pinOk: bool, active: bool): Inputs {
    if a.pc in {Pin, Row, Judge, Draft} then a.x.(now := clock, pinOk := pinOk, active := active) else a.x
  }

  /** The answer of the call if it ran alone on the committed tables now. */
  function Alone(st: Store, clock: int, a: Actor, pinOk: bool, active: bool): Outcome {
    Run(st, a.call, Knows(a, clock, pinOk, active)).1
  }

  /** Since the call looked its key up, somebody else committed a transaction under it. */
  predicate Overtaken(st: Store, a: Actor) {
    a.pc == Check && MovesMoney(a.call) && FindReplay(st.txns, a.plan.initiator, a.plan.key).Some?
  }

  /** The call carries the empty string as its key, and the index has refused its row. */
  predicate EmptyKeyRefused(a: Actor) {
    a.pc == Winner && a.plan.key == Some("")
  }

  // --- one step -----------------------------------------------------------------------

  /** Before a plan is made, every refusal is the answer of the call run alone. */
  lemma EarlyRefusal(st: Store, clock: int, n: EntryId, a: Actor, pinOk: bool, active: bool)
    requires Context(st, a) && a.pc in {Pin, Row, Judge, Phone, Insertion, Draft}
    ensures var pc := Local(st, clock, n, a, pinOk, active, true).pc;
            !pc.Done? && pc != Winner && (pc.Unwind? ==> Alone(st, clock, a, pinOk, active) == Failed(pc.error))
  {
  }

  /** What a send or an approval answers when the movement of money ends so. */
  function MoveOutcome(c: Call, m: MoveResult, id: TxnId): Outcome
    requires MovesMoney(c)
  {
    match m
    case Moved(_) => if c.Send? then Sent(id) else Settled(id)
    case Replay(t) => if c.Send? then Replayed(t) else Settled(t)
    case Refused(e) => Failed(e)
  }

  lemma AloneIsMove(st: Store, a: Actor)
    requires Context(st, a) && MovesMoney(a.call) && (Level(a.pc) < 7 || a.pc in {Lookup, Winner})
    ensures Run(st, a.call, a.x).1 == MoveOutcome(a.call, Move(st, OrderOf(a), a.x.ids), a.x.ids.txn)
  {
    if a.call.Send? {
      assert a.x.pinOk && a.x.active;
    } else {
      assert a.heldRow.Some? && a.row == st.requests[a.call.id];
      assert Actionable(st, a.call.id, a.call.payer, true, a.x.now) == None;
    }
  }

  /** Every refusal and every replay of the lookup is the answer of the call run alone. */
  lemma LookupRefusal(st: Store, a: Actor)
    requires Context(st, a) && a.pc == Lookup
    ensures var a', o := LookupStep(st, a), Run(st, a.call, a.x).1;
            && a'.pc != Winner
            && (a'.pc.Unwind? ==> o == Failed(a'.pc.error))
            && (a'.pc.Done? ==> a'.pc.outcome.Replayed? && o == a'.pc.outcome)
            && (a'.pc == Mark ==> o == Settled(a'.moved))
  {
    AloneIsMove(st, a);
  }

  lemma CheckIsMove(st: Store, n: EntryId, a: Actor)
    requires LedgerInv(st) && ActorOk(st, n, a) && a.pc == Check && MovesMoney(a.call)
    ensures var m, pc := Move(st, OrderOf(a), a.x.ids), CheckStep(a).pc;
            pc.Unwind? ==>
              if Overtaken(st, a) then
                pc.error in {BadAmount, InsufficientFunds} && (m.Replay? || m == Refused(KeyConflict))
              else m == Refused(pc.error)
  {
    assert Base(st, a) == st;
    MoveAnswers(st, OrderOf(a), a.x.ids);
  }

  lemma GrantCheck(st: Store, n: EntryId, a: Actor)
    requires LedgerInv(st) && ActorOk(st, n, a) && a.call.Register? && a.pc == Check
    ensures var pc := CheckStep(a).pc;
            !pc.Done? && pc != Winner && (pc.Unwind? ==> Run(st, a.call, a.x).1 == Failed(pc.error))
  {
  }

  lemma GrantInsert(st: Store, n: EntryId, a: Actor)
    requires LedgerInv(st) && ActorOk(st, n, a) && a.call.Register? && a.pc == Insert
    ensures var pc := InsertStep(st.txns, a).pc;
            !pc.Done? && pc != Winner && (pc.Unwind? ==> Run(st, a.call, a.x).1 == Failed(pc.error))
  {
  }

  lemma GrantUpdate(st: Store, n: EntryId, a: Actor)
    requires LedgerInv(st) && ActorOk(st, n, a) && a.call.Register? && a.pc == Update
    ensures var pc := UpdateStep(a).pc;
            !pc.Done? && pc != Winner && (pc.Unwind? ==> Run(st, a.call, a.x).1 == Failed(pc.error))
  {
  }

  lemma GrantRefusal(st: Store, clock: int, n: EntryId, a: Actor, pinOk: bool, active: bool)
    requires LedgerInv(st) && ActorOk(st, n, a) && a.call.Register? && a.pc in {Check, Insert, Update}
    ensures var pc := Local(st, clock, n, a, pinOk, active, true).pc;
            !pc.Done? && pc != Winner && (pc.Unwind? ==> Run(st, a.call, a.x).1 == Failed(pc.error))
  {
    match a.pc
    case Check => GrantCheck(st, n, a);
    case Insert => GrantInsert(st, n, a);
    case _ => GrantUpdate(st, n, a);
  }

  /** The balance check refuses what the call run alone would be refused, unless the call was overtaken:
      alone, it would then find the transaction under its key. */
  lemma CheckRefusal(st: Store, n: EntryId, a: Actor)
    requires LedgerInv(st) && ActorOk(st, n, a) && a.pc == Check && MovesMoney(a.call)
    ensures var pc, o := CheckStep(a).pc, Run(st, a.call, a.x).1;
            && !pc.Done? && pc != Winner
            && (pc.Unwind? && !Overtaken(st, a) ==> o == Failed(pc.error))
            && (pc.Unwind? && Overtaken(st, a) ==>
                  && pc.error in {BadAmount, InsufficientFunds}
                  && (o.Replayed? || o.Settled? || o == Failed(KeyConflict)))
  {
    AloneIsMove(st, a);
    CheckIsMove(st, n, a);
  }

  /** The insert sends a call with an empty key that is taken to its second lookup, where the call run
      alone would be refused. */
  lemma InsertRefusal(st: Store, n: EntryId, a: Actor)
    requires LedgerInv(st) && ActorOk(st, n, a) && a.pc == Insert && MovesMoney(a.call)
    ensures var a' := InsertStep(st.txns, a);
            && !a'.pc.Unwind? && !a'.pc.Done?
            && (EmptyKeyRefused(a') ==> Run(st, a.call, a.x).1 == Failed(IntegrityFailure))
  {
    AloneIsMove(st, a);
    PassedCheck(st, n, a);
    TransferFits(st, a.plan);
    MoveAnswers(st, OrderOf(a), a.x.ids);
  }

  lemma UpdateRefusal(st: Store, n: EntryId, a: Actor)
    requires LedgerInv(st) && ActorOk(st, n, a) && a.pc == Update && MovesMoney(a.call)
    ensures UpdateStep(a).pc == Debit
  {
    PassedCheck(st, n, a);
    TransferFits(st, a.plan);
  }

  /** The second lookup answers what the call run alone would, save for an empty key: that one was refused
      by the index. */
  lemma WinnerRefusal(st: Store, a: Actor)
    requires Context(st, a) && a.pc == Winner
    ensures var a', o := WinnerStep(st, a), Run(st, a.call, a.x).1;
            if EmptyKeyRefused(a) then a'.pc == Unwind(IntegrityFailure)
            else
              && a'.pc != Winner
              && (a'.pc.Unwind? ==> o == Failed(a'.pc.error))
              && (a'.pc.Done? ==> a'.pc.outcome.Replayed? && o == a'.pc.outcome)
              && (a'.pc == Mark ==> o == Settled(a'.moved))
  {
    AloneIsMove(st, a);
  }

  /** The answer that a step decides on: a refusal, or the transaction that is replayed. */
  function Decided(a: Actor, a': Actor): Option<Outcome> {
    match a'.pc
    case Unwind(e) => Some(Failed(e))
    case Done(o) => if a.pc.Unwind? || a.pc == Commit then None else Some(o)
    case Winner => if EmptyKeyRefused(a') then Some(Failed(IntegrityFailure)) else None
    case Mark => if a.pc in {Lookup, Winner} then Some(Settled(a'.moved)) else None
    case _ => None
  }

  /** The step's decision is the answer of the call run alone, unless the call was overtaken between its
      lookup and its balance check; alone, it would then be replayed, or refused for its key. */
  predicate Fair(st: Store, clock: int, a: Actor, a': Actor, pinOk: bool, active: bool) {
    var o, alone := Decided(a, a'), Alone(st, clock, a, pinOk, active);
    o.Some? ==>
      if Overtaken(st, a) then
        && o.value in {Failed(BadAmount), Failed(InsufficientFunds)}
        && (alone.Replayed? || alone.Settled? || alone == Failed(KeyConflict))
      else o.value == alone
  }

  lemma FairLookup(st: Store, clock: int, n: EntryId, a: Actor, pinOk: bool, active: bool)
    requires Context(st, a) && a.pc in {Lookup, Winner} && !EmptyKeyRefused(a)
    ensures Fair(st, clock, a, Local(st, clock, n, a, pinOk, active, true), pinOk, active)
  {
    if a.pc == Lookup {
      LookupRefusal(st, a);
    } else {
      WinnerRefusal(st, a);
    }
  }

  lemma FairInsert(st: Store, clock: int, n: EntryId, a: Actor, pinOk: bool, active: bool)
    requires OnScript(a) && a.pc == Insert
    requires var a' := InsertStep(st.txns, a);
             && !a'.pc.Unwind? && !a'.pc.Done?
             && (EmptyKeyRefused(a') ==> Run(st, a.call, a.x).1 == Failed(IntegrityFailure))
    ensures Fair(st, clock, a, Local(st, clock, n, a, pinOk, active, true), pinOk, active)
  {
  }

  lemma FairUpdate(st: Store, clock: int, n: EntryId, a: Actor, pinOk: bool, active: bool)
    requires OnScript(a) && a.pc == Update && UpdateStep(a).pc == Debit
    ensures Fair(st, clock, a, Local(st, clock, n, a, pinOk, active, true), pinOk, active)
  {
  }

  lemma FairCheck(st: Store, clock: int, n: EntryId, a: Actor, pinOk: bool, active: bool)
    requires OnScript(a) && MovesMoney(a.call) && a.pc == Check
    requires var pc, o := CheckStep(a).pc, Run(st, a.call, a.x).1;
             && !pc.Done? && pc != Winner
             && (pc.Unwind? && !Overtaken(st, a) ==> o == Failed(pc.error))
             && (pc.Unwind? && Overtaken(st, a) ==>
                   && pc.error in {BadAmount, InsufficientFunds}
                   && (o.Replayed? || o.Settled? || o == Failed(KeyConflict)))
    ensures Fair(st, clock, a, Local(st, clock, n, a, pinOk, active, true), pinOk, active)
  {
  }

  lemma NothingDecided(st: Store, clock: int, n: EntryId, a: Actor, pinOk: bool, active: bool)
    requires OnScript(a) && a.pc !in {Pin, Row, Judge, Phone, Insertion, Draft, Lookup, Check, Insert, Update, Winner}
    requires !a.pc.Done?
    ensures Decided(a, Local(st, clock, n, a, pinOk, active, true)) == None
  {
  }

  lemma MoveDecisionFair(st: Store, clock: int, n: EntryId, a: Actor, pinOk: bool, active: bool)
    requires LedgerInv(st) && ActorOk(st, n, a) && MovesMoney(a.call) && !EmptyKeyRefused(a)
    requires a.pc in {Lookup, Check, Insert, Update, Winner}
    ensures Fair(st, clock, a, Local(st, clock, n, a, pinOk, active, true), pinOk, active)
  {
    if a.pc in {Lookup, Winner} {
      FairLookup(st, clock, n, a, pinOk, active);
    } else if a.pc == Check {
      CheckRefusal(st, n, a);
      FairCheck(st, clock, n, a, pinOk, active);
    } else if a.pc == Insert {
      InsertRefusal(st, n, a);
      FairInsert(st, clock, n, a, pinOk, active);
    } else {
      UpdateRefusal(st, n, a);
      FairUpdate(st, clock, n, a, pinOk, active);
    }
  }

  lemma EarlyFair(st: Store, clock: int, n: EntryId, a: Actor, pinOk: bool, active: bool)
    requires Context(st, a) && a.pc in {Pin, Row, Judge, Phone, Insertion, Draft}
    ensures Fair(st, clock, a, Local(st, clock, n, a, pinOk, active, true), pinOk, active)
  {
    EarlyRefusal(st, clock, n, a, pinOk, active);
  }

  lemma GrantFair(st: Store, clock: int, n: EntryId, a: Actor, pinOk: bool, active: bool)
    requires OnScript(a) && a.call.Register? && a.pc in {Check, Insert, Update}
    requires var pc := Local(st, clock, n, a, pinOk, active, true).pc;
             !pc.Done? && pc != Winner && (pc.Unwind? ==> Run(st, a.call, a.x).1 == Failed(pc.error))
    ensures Fair(st, clock, a, Local(st, clock, n, a, pinOk, active, true), pinOk, active)
  {
  }

  /** Every step of every transaction decides fairly. */
  lemma EveryDecisionFair(st: Store, clock: int, n: EntryId, a: Actor, pinOk: bool, active: bool)
    requires LedgerInv(st) && ActorOk(st, n, a) && !a.pc.Done? && !EmptyKeyRefused(a)
    ensures Fair(st, clock, a, Local(st, clock, n, a, pinOk, active, true), pinOk, active)
  {
    assert Context(st, a);
    if a.pc in {Pin, Row, Judge, Phone, Insertion, Draft} {
      EarlyFair(st, clock, n, a, pinOk, active);
    } else if a.pc in {Lookup, Check, Insert, Update, Winner} {
      if a.call.Register? {
        GrantRefusal(st, clock, n, a, pinOk, active);
        GrantFair(st, clock, n, a, pinOk, active);
      } else {
        MoveDecisionFair(st, clock, n, a, pinOk, active);
      }
    } else {
      NothingDecided(st, clock, n, a, pinOk, active);
    }
  }

  // --- every schedule -------------------------------------------------------------------

  /** Step k of the schedule is one of transaction i, and at that moment the call run alone would have been
      answered so, or the transaction was overtaken. */
  predicate Justifies(es: seq<Event>, k: nat, i: nat, o: Outcome)
    requires k < |es|
  {
    && es[k].Act? && es[k].actor == i && Exec(es[..k], true).Some?
    && var s := Exec(es[..k], true).value;
       && i < |s.actors|
       && if Overtaken(s.store, s.actors[i]) then o in {Failed(BadAmount), Failed(InsufficientFunds)}
          else Alone(s.store, s.clock, s.actors[i], es[k].pinOk, es[k].active) == o
  }

  predicate Justified(es: seq<Event>, i: nat, o: Outcome) {
    exists k :: 0 <= k < |es| && Justifies(es, k, i, o)
  }

  lemma StillJustified(es: seq<Event>, i: nat, o: Outcome)
    requires es != [] && Justified(es[..|es| - 1], i, o)
    ensures Justified(es, i, o)
  {
    var k :| 0 <= k < |es| - 1 && Justifies(es[..|es| - 1], k, i, o);
    assert es[..|es| - 1][..k] == es[..k];
    assert Justifies(es, k, i, o);
  }

  /** What a transaction is bound to answer that does not commit. */
  function Bound(a: Actor): Option<Outcome> {
    match a.pc
    case Unwind(e) => Some(Failed(e))
    case Done(Failed(e)) => Some(Failed(e))
    case Done(Replayed(t)) => Some(Replayed(t))
    case Winner => if EmptyKeyRefused(a) then Some(Failed(IntegrityFailure)) else None
    case _ => None
  }

  lemma BoundByStep(st: Store, clock: int, n: EntryId, a: Actor, pinOk: bool, active: bool)
    requires OnScript(a) && !a.pc.Done? && a.pc != Commit
    ensures var a' := Local(st, clock, n, a, pinOk, active, true);
            Bound(a').Some? && Bound(a') != Bound(a) ==> Decided(a, a') == Bound(a') && !EmptyKeyRefused(a)
  {
  }

  lemma CommitNotBound(st: Store, clock: int, n: EntryId, a: Actor, pinOk: bool, active: bool)
    requires OnScript(a) && a.pc == Commit
    ensures Bound(Local(st, clock, n, a, pinOk, active, true)) == None
  {
  }

  lemma StepBinds(s: State, i: nat, pinOk: bool, active: bool)
    requires LedgerInv(s.store) && i < |s.actors| && ActorOk(s.store, s.nextEntry, s.actors[i])
    requires !s.actors[i].pc.Done?
    ensures var a := s.actors[i];
            var o := Bound(Local(s.store, s.clock, s.nextEntry, a, pinOk, active, true));
            o.Some? && o != Bound(a) ==>
              if Overtaken(s.store, a) then o.value in {Failed(BadAmount), Failed(InsufficientFunds)}
              else o.value == Alone(s.store, s.clock, a, pinOk, active)
  {
    var a := s.actors[i];
    if a.pc == Commit {
      CommitNotBound(s.store, s.clock, s.nextEntry, a, pinOk, active);
    } else {
      BoundByStep(s.store, s.clock, s.nextEntry, a, pinOk, active);
      if !EmptyKeyRefused(a) {
        EveryDecisionFair(s.store, s.clock, s.nextEntry, a, pinOk, active);
      }
    }
  }

  lemma EventBinds(es: seq<Event>, s: State, i: nat)
    requires es != [] && Exec(es[..|es| - 1], true) == Some(s) && LedgerInv(s.store) && ActorsOk(s)
    requires Legal(s, es[|es| - 1]) && i < |s.actors|
    ensures var o := Bound(Do(s, es[|es| - 1], true).actors[i]);
            o.Some? && o != Bound(s.actors[i]) && o != Some(Failed(Disconnected)) ==> Justified(es, i, o.value)
  {
    var e := es[|es| - 1];
    if e.Act? && e.actor == i {
      StepBinds(s, i, e.pinOk, e.active);
      var o := Bound(Local(s.store, s.clock, s.nextEntry, s.actors[i], e.pinOk, e.active, true));
      if o.Some? && o != Bound(s.actors[i]) {
        assert Justifies(es, |es| - 1, i, o.value);
      }
    }
  }

  /** In every schedule, whoever is refused or replayed was so for a reason: at one of its steps the call run
      alone on the committed tables would have been answered the same. Only a lost connection needs none,
      and only the balance check of an overtaken call may say something else. */
  lemma {:induction false} EveryAnswerJustified(es: seq<Event>, i: nat)
    requires Exec(es, true).Some? && i < |Exec(es, true).value.actors|
    ensures var o := Bound(Exec(es, true).value.actors[i]);
            o.Some? && o != Some(Failed(Disconnected)) ==> Justified(es, i, o.value)
  {
    if es != [] {
      var s, e := Exec(es[..|es| - 1], true).value, es[|es| - 1];
      if i < |s.actors| {
        EveryAnswerJustified(es[..|es| - 1], i);
        assert LedgerInv(s.store) && ActorsOk(s) by {
          ReachableInv(es[..|es| - 1]);
        }
        EventBinds(es, s, i);
        if Bound(s.actors[i]).Some? && Bound(Do(s, e, true).actors[i]) == Bound(s.actors[i]) {
          var o := Bound(s.actors[i]);
          if o != Some(Failed(Disconnected)) {
            StillJustified(es, i, o.value);
          }
        }
      }
    }
  }
}
