/** Rotation, revocation and logout at row-lock granularity: each database transaction locks rows one
    at a time, and the family UPDATE works from the rows committed when it started. */
module SessionRaces {
  import opened Tables
  import opened SessionFamilies

  datatype Op =
    | Login(id: SessionId, user: UserId, digest: Digest)
    | Refresh(id: SessionId, presented: Digest, newId: SessionId, newDigest: Digest)
    | Leave(id: SessionId)

  datatype Pc =
    | Add          // insert a root session
    | Lock         // SELECT ... FOR UPDATE of the presented session
    | Check        // the checks on the locked row
    | Scan         // the family UPDATE takes its snapshot
    | Sweep        // and locks and blocks the rows of it one by one
    | Peek         // logout reads without a lock
    | Mark         // and blocks its row
    | Commit
    | Done(answer: Answer)

  /** seen: the snapshot of the family UPDATE; todo: what of it is still to be blocked. */
  datatype Actor = Actor(op: Op, pc: Pc, row: Row, seen: set<SessionId>, todo: set<SessionId>, held: set<SessionId>,
                         blocks: set<SessionId>, added: Option<(SessionId, Row)>, answer: Answer)

  datatype State = State(rows: Rows, actors: seq<Actor>, clock: int)

  /** Abandon: the connection is lost, or the transaction is the victim of a deadlock; it is rolled back. */
  datatype Event =
    | Begin(op: Op)
    | Tick(now: int)
    | Act(actor: nat, active: bool, pick: SessionId)
    | Abandon(actor: nat)

  const START: State := State(map[], [], 0)
  const NO_ROW: Row := Row(0, 0, "", true, 0)

  function NewId(op: Op): Option<SessionId> {
    match op
    case Login(id, _, _) => Some(id)
    case Refresh(_, _, id, _) => Some(id)
    case Leave(_) => None
  }

  function Newcomer(op: Op): Actor {
    Actor(op, match op case Login(_, _, _) => Add case Refresh(_, _, _, _) => Lock case Leave(_) => Peek,
          NO_ROW, {}, {}, {}, {}, None, InvalidToken)
  }

  function Finish(a: Actor, answer: Answer): Actor {
    a.(pc := Done(answer), todo := {}, held := {}, blocks := {}, added := None)
  }

  predicate OnScript(a: Actor) {
    match a.pc
    case Add => a.op.Login?
    case Lock => a.op.Refresh?
    case Check => a.op.Refresh?
    case Scan => a.op.Refresh?
    case Sweep => a.op.Refresh?
    case Peek => a.op.Leave?
    case Mark => a.op.Leave?
    case _ => true
  }

  function CheckStep(a: Actor, now: int, active: bool): Actor
    requires a.op.Refresh?
  {
    match Judge(a.row, a.op.presented, now, active)
    case Compromised => a.(pc := Scan)
    case Overdue => Finish(a, InvalidToken)
    case Orphan => Finish(a, InvalidToken)
    case Good =>
      a.(pc := Commit, blocks := {a.op.id}, added := Some((a.op.newId, Descendant(a.row, a.op.newDigest, now))),
         answer := Rotated(a.op.newId))
  }

  function Local(rows: Rows, now: int, a: Actor, active: bool, pick: SessionId): Actor
    requires OnScript(a)
  {
    match a.pc
    case Add => a.(pc := Commit, added := Some((a.op.id, Root(a.op.id, a.op.user, a.op.digest, now))),
                   answer := Issued(a.op.id))
    case Lock => if a.op.id !in rows then Finish(a, InvalidToken)
                 else a.(pc := Check, held := {a.op.id}, row := rows[a.op.id])
    case Check => CheckStep(a, now, active)
    case Scan => a.(pc := Sweep, seen := Members(rows, a.row.family), todo := Members(rows, a.row.family))
    case Sweep => if a.todo == {} then a.(pc := Commit, answer := ReuseDetected)
                  else a.(todo := a.todo - {pick}, held := a.held + {pick}, blocks := a.blocks + {pick})
    case Peek => if a.op.id !in rows || rows[a.op.id].blocked then Finish(a, Closed) else a.(pc := Mark)
    case Mark => a.(pc := Commit, held := {a.op.id}, blocks := {a.op.id}, answer := Closed)
    case Commit => Finish(a, a.answer)
    case Done(_) => a
  }

  /** The row the next step must lock. */
  function Wants(rows: Rows, a: Actor, pick: SessionId): Option<SessionId>
    requires OnScript(a)
  {
    match a.pc
    case Lock => if a.op.id in rows then Some(a.op.id) else None
    case Sweep => if a.todo == {} then None else Some(pick)
    case Mark => Some(a.op.id)
    case _ => None
  }

  predicate Free(s: State, i: nat, id: SessionId) {
    forall j :: 0 <= j < |s.actors| && j != i ==> id !in s.actors[j].held
  }

  predicate Ready(s: State, i: nat, pick: SessionId) {
    && i < |s.actors| && OnScript(s.actors[i]) && !s.actors[i].pc.Done?
    && (s.actors[i].pc == Sweep && s.actors[i].todo != {} ==> pick in s.actors[i].todo)
    && (Wants(s.rows, s.actors[i], pick).Some? ==> Free(s, i, Wants(s.rows, s.actors[i], pick).value))
  }

  predicate Legal(s: State, e: Event) {
    match e
    case Begin(op) =>
      NewId(op).Some? ==>
        NewId(op).value !in s.rows && forall j :: 0 <= j < |s.actors| ==> NewId(s.actors[j].op) != NewId(op)
    case Tick(now) => s.clock <= now
    case Act(i, _, pick) => Ready(s, i, pick)
    case Abandon(i) => i < |s.actors| && !s.actors[i].pc.Done?
  }

  /** A commit blocks what was locked and adds what was inserted. */
  function Committed(rows: Rows, a: Actor): Rows {
    var blocked := Block(rows, a.blocks);
    if a.added.Some? then blocked[a.added.value.0 := a.added.value.1] else blocked
  }

  function Do(s: State, e: Event): State
    requires Legal(s, e)
  {
    match e
    case Begin(op) => s.(actors := s.actors + [Newcomer(op)])
    case Tick(now) => s.(clock := now)
    case Act(i, active, pick) =>
      var a := s.actors[i];
      State(if a.pc.Commit? then Committed(s.rows, a) else s.rows,
            s.actors[i := Local(s.rows, s.clock, a, active, pick)], s.clock)
    case Abandon(i) => s.(actors := s.actors[i := Finish(s.actors[i], Lost)])
  }

  function Exec(es: seq<Event>): Option<State> {
    if es == [] then Some(START)
    else
      match Exec(es[..|es| - 1])
      case None => None
      case Some(s) => if Legal(s, es[|es| - 1]) then Some(Do(s, es[|es| - 1])) else None
  }

  // --- the invariant -------------------------------------------------------------

  predicate Rotating(a: Actor) {
    a.op.Refresh? && a.pc == Commit && a.added.Some?
  }

  predicate Revoking(a: Actor) {
    a.op.Refresh? && (a.pc == Sweep || (a.pc == Commit && a.added == None))
  }

  /** When the session that is about to be added was made. */
  function MadeAt(a: Actor): int
    requires a.added.Some?
  {
    a.added.value.1.expires - REFRESH_LIFETIME
  }

  predicate ActorOk(rows: Rows, a: Actor) {
    && OnScript(a)
    && (!a.pc.Done? && NewId(a.op).Some? ==> NewId(a.op).value !in rows)
    && (a.op.Refresh? && a.pc in {Check, Scan, Sweep, Commit} ==>
          && a.op.id in a.held && a.op.id in rows && a.row == rows[a.op.id])
    && (Rotating(a) ==>
          && a.blocks == {a.op.id} && a.answer == Rotated(a.op.newId)
          && Judge(a.row, a.op.presented, MadeAt(a), true) == Good
          && a.added == Some((a.op.newId, Descendant(a.row, a.op.newDigest, MadeAt(a)))))
    && (a.op.Login? && a.pc == Commit ==>
          && a.blocks == {} && a.added.Some? && a.answer == Issued(a.op.id)
          && a.added == Some((a.op.id, Root(a.op.id, a.op.user, a.op.digest, MadeAt(a)))))
    && (Revoking(a) ==>
          && a.todo <= a.seen && a.blocks == a.seen - a.todo && a.blocks <= a.held
          && (forall id <- a.seen :: id in rows && rows[id].family == a.row.family)
          && (a.pc == Commit ==> a.todo == {} && a.answer == ReuseDetected))
    && (a.op.Login? && a.pc == Add ==> a.blocks == {})
    && (a.op.Leave? ==> a.added == None)
    && (a.op.Leave? && a.pc == Commit ==> a.blocks == a.held == {a.op.id} && a.answer == Closed)
    && (a.op.Refresh? && a.pc in {Lock, Check, Scan} ==> a.blocks == {} && a.added == None)
    && (a.op.Refresh? && a.pc == Sweep ==> a.added == None)
    && (a.pc.Done? ==> a.held == {})
  }

  predicate Apart(a: Actor, b: Actor) {
    && a.held !! b.held
    && (NewId(a.op).Some? ==> NewId(a.op) != NewId(b.op))
  }

  ghost predicate Inv(s: State) {
    && FamiliesOk(s.rows)
    && (forall i :: 0 <= i < |s.actors| ==> ActorOk(s.rows, s.actors[i]))
    && (forall i, j :: 0 <= i < |s.actors| && 0 <= j < |s.actors| && i != j ==> Apart(s.actors[i], s.actors[j]))
  }

  lemma RefreshStep(rows: Rows, now: int, a: Actor, active: bool, pick: SessionId)
    requires ActorOk(rows, a) && a.op.Refresh? && a.pc in {Lock, Check, Scan}
    ensures ActorOk(rows, Local(rows, now, a, active, pick))
  {
  }

  lemma SweepStep(rows: Rows, now: int, a: Actor, active: bool, pick: SessionId)
    requires ActorOk(rows, a) && a.pc == Sweep && (a.todo != {} ==> pick in a.todo)
    ensures ActorOk(rows, Local(rows, now, a, active, pick))
  {
  }

  lemma OwnStep(rows: Rows, now: int, a: Actor, active: bool, pick: SessionId)
    requires ActorOk(rows, a) && !a.pc.Done? && a.pc != Commit
    requires a.pc == Sweep && a.todo != {} ==> pick in a.todo
    ensures ActorOk(rows, Local(rows, now, a, active, pick))
  {
    if a.pc == Sweep {
      SweepStep(rows, now, a, active, pick);
    } else if a.op.Refresh? {
      RefreshStep(rows, now, a, active, pick);
    }
  }

  lemma StepApart(rows: Rows, now: int, a: Actor, b: Actor, active: bool, pick: SessionId)
    requires ActorOk(rows, a) && Apart(a, b)
    requires Wants(rows, a, pick).Some? ==> Wants(rows, a, pick).value !in b.held
    ensures Apart(Local(rows, now, a, active, pick), b) && Apart(b, Local(rows, now, a, active, pick))
  {
  }

  /** A commit keeps at most one live session per family, even when others are in flight. */
  lemma CommitFamilies(rows: Rows, a: Actor)
    requires FamiliesOk(rows) && ActorOk(rows, a) && a.pc == Commit
    ensures FamiliesOk(Committed(rows, a))
  {
    var after := Committed(rows, a);
    forall x, y | Live(after, x) && Live(after, y) && after[x].family == after[y].family ensures x == y {
      if a.added.Some? && (x == a.added.value.0 || y == a.added.value.0) {
        if a.op.Refresh? {
          assert Live(rows, a.op.id);
          assert x != a.added.value.0 ==> Live(rows, x);
          assert y != a.added.value.0 ==> Live(rows, y);
        }
      } else {
        assert Live(rows, x) && Live(rows, y);
      }
    }
  }

  lemma OtherCommit(rows: Rows, a: Actor, b: Actor)
    requires FamiliesOk(rows) && ActorOk(rows, a) && ActorOk(rows, b) && Apart(a, b) && Apart(b, a) && b.pc == Commit
    ensures ActorOk(Committed(rows, b), a)
  {
  }

  // --- every schedule --------------------------------------------------------------

  lemma ActKeeps(s: State, i: nat, active: bool, pick: SessionId)
    requires Inv(s) && Ready(s, i, pick) && s.actors[i].pc != Commit
    ensures Inv(Do(s, Act(i, active, pick)))
  {
    var a, s' := s.actors[i], Do(s, Act(i, active, pick));
    OwnStep(s.rows, s.clock, a, active, pick);
    forall j, k | 0 <= j < |s'.actors| && 0 <= k < |s'.actors| && j != k ensures Apart(s'.actors[j], s'.actors[k]) {
      assert Apart(s.actors[j], s.actors[k]);
      if j == i || k == i {
        var o := if j == i then k else j;
        assert Apart(a, s.actors[o]);
        StepApart(s.rows, s.clock, a, s.actors[o], active, pick);
      }
    }
  }

  lemma CommitKeeps(s: State, i: nat, active: bool, pick: SessionId)
    requires Inv(s) && Ready(s, i, pick) && s.actors[i].pc == Commit
    ensures Inv(Do(s, Act(i, active, pick)))
  {
    var a, s' := s.actors[i], Do(s, Act(i, active, pick));
    CommitFamilies(s.rows, a);
    forall j | 0 <= j < |s'.actors| ensures ActorOk(s'.rows, s'.actors[j]) {
      if j != i {
        assert Apart(s.actors[j], a) && Apart(a, s.actors[j]);
        OtherCommit(s.rows, s.actors[j], a);
      }
    }
    forall j, k | 0 <= j < |s'.actors| && 0 <= k < |s'.actors| && j != k ensures Apart(s'.actors[j], s'.actors[k]) {
      assert Apart(s.actors[j], s.actors[k]);
    }
  }

  lemma AbandonKeeps(s: State, i: nat)
    requires Inv(s) && Legal(s, Abandon(i))
    ensures Inv(Do(s, Abandon(i)))
  {
    var s' := Do(s, Abandon(i));
    assert ActorOk(s.rows, s.actors[i]);
    forall j, k | 0 <= j < |s'.actors| && 0 <= k < |s'.actors| && j != k ensures Apart(s'.actors[j], s'.actors[k]) {
      assert Apart(s.actors[j], s.actors[k]);
    }
  }

  lemma {:induction false} ReachableInv(es: seq<Event>)
    requires Exec(es).Some?
    ensures Inv(Exec(es).value)
  {
    if es != [] {
      var s, e := Exec(es[..|es| - 1]).value, es[|es| - 1];
      ReachableInv(es[..|es| - 1]);
      match e
      case Begin(_) =>
      case Tick(_) =>
      case Act(i, active, pick) =>
        if s.actors[i].pc == Commit {
          CommitKeeps(s, i, active, pick);
        } else {
          ActKeeps(s, i, active, pick);
        }
      case Abandon(i) => AbandonKeeps(s, i);
    }
  }

  /** In every reachable state each family has at most one live session, with any number of rotations,
      revocations and logouts in flight. */
  lemma AtMostOneLive(es: seq<Event>, a: SessionId, b: SessionId)
    requires Exec(es).Some?
    ensures var rows := Exec(es).value.rows;
            Live(rows, a) && Live(rows, b) && rows[a].family == rows[b].family ==> a == b
  {
    ReachableInv(es);
  }

  /** A rotation that commits retires exactly the session it was granted for, which was still live,
      and adds one live session of the same family. */
  lemma RotationRetires(s: State, i: nat)
    requires Inv(s) && i < |s.actors| && Rotating(s.actors[i])
    ensures var a := s.actors[i];
            var after := Committed(s.rows, a);
            && Live(s.rows, a.op.id) && a.op.newId !in s.rows
            && after.Keys == s.rows.Keys + {a.op.newId} && Live(after, a.op.newId)
            && after[a.op.newId].family == s.rows[a.op.id].family
            && forall id <- s.rows :: after[id] == if id == a.op.id then s.rows[id].(blocked := true) else s.rows[id]
  {
    assert ActorOk(s.rows, s.actors[i]);
  }

  /** Once no session of a family is live, none ever is again, whatever is still in flight. */
  lemma DeadStays(s: State, e: Event, family: SessionId)
    requires Inv(s) && Legal(s, e) && Dead(s.rows, family)
    ensures Dead(Do(s, e).rows, family)
  {
    if e.Act? && s.actors[e.actor].pc == Commit {
      var a := s.actors[e.actor];
      assert ActorOk(s.rows, a);
      var after := Committed(s.rows, a);
      forall id | Live(after, id) ensures after[id].family != family {
        assert Live(s.rows, id) || (a.added.Some? && id == a.added.value.0);
        if a.op.Refresh? && a.added.Some? {
          assert Live(s.rows, a.op.id);
        }
      }
    }
  }

  // --- what each step answers -------------------------------------------------------

  /** What one call does to the rows all at once, as of the time it checked at. */
  function Whole(rows: Rows, a: Actor): (Rows, Answer)
    requires a.added.Some? || a.op.Leave?
  {
    match a.op
    case Login(id, user, digest) => (Issue(rows, id, user, digest, MadeAt(a)), Issued(id))
    case Refresh(id, presented, newId, newDigest) => Rotate(rows, id, presented, newId, newDigest, MadeAt(a), true)
    case Leave(id) => (Logout(rows, id), Closed)
  }

  /** A login, a rotation and a logout commit what they would do all at once to the committed rows; a
      revocation blocks the members that it saw. */
  lemma CommitIsWhole(s: State, i: nat, active: bool, pick: SessionId)
    requires Inv(s) && Ready(s, i, pick) && s.actors[i].pc == Commit
    ensures var a, s' := s.actors[i], Do(s, Act(i, active, pick));
            if Revoking(a) then
              s'.rows == Block(s.rows, a.seen) && s'.actors[i].pc == Done(ReuseDetected)
            else
              && (a.added.Some? || a.op.Leave?)
              && s'.rows == Whole(s.rows, a).0 && s'.actors[i].pc == Done(Whole(s.rows, a).1)
  {
    assert ActorOk(s.rows, s.actors[i]);
  }

  /** The check goes the way a rotation of the committed rows would go at this moment: it is granted, it
      starts the revocation, or it is refused. */
  lemma CheckIsRotate(s: State, i: nat, active: bool, pick: SessionId)
    requires Inv(s) && Ready(s, i, pick) && s.actors[i].pc in {Lock, Check}
    ensures var a, a' := s.actors[i], Do(s, Act(i, active, pick)).actors[i];
            var answer := Rotate(s.rows, a.op.id, a.op.presented, a.op.newId, a.op.newDigest, s.clock, active).1;
            && (a.pc == Check ==>
                  && (a'.pc == Commit <==> answer == Rotated(a.op.newId))
                  && (a'.pc == Scan <==> answer == ReuseDetected)
                  && (a'.pc == Done(InvalidToken) <==> answer == InvalidToken)
                  && (a'.pc == Commit ==> MadeAt(a') == s.clock))
            && (a.pc == Lock && a'.pc != Check ==> a'.pc == Done(InvalidToken) && a.op.id !in s.rows)
  {
    assert ActorOk(s.rows, s.actors[i]);
  }

  predicate LoggedOut(a: Actor, id: SessionId) {
    a.op == Leave(id) && a.pc == Done(Closed)
  }

  lemma LogoutStep(s: State, e: Event, i: nat, id: SessionId)
    requires Inv(s) && Legal(s, e) && id in s.rows && i < |Do(s, e).actors| && LoggedOut(Do(s, e).actors[i], id)
    requires i < |s.actors| && LoggedOut(s.actors[i], id) ==> !Live(s.rows, id)
    ensures !Live(Do(s, e).rows, id)
  {
    if e.Act? {
      assert ActorOk(s.rows, s.actors[e.actor]);
    }
  }

  /** A session that was there when a logout of it began is over once the logout is answered, and stays so,
      whatever rotations and revocations are in flight. */
  lemma {:induction false} LogoutIsFinal(es: seq<Event>, k: nat, i: nat, id: SessionId)
    requires k < |es| && Exec(es).Some? && Exec(es[..k]).Some? && id in Exec(es[..k]).value.rows
    requires |Exec(es[..k]).value.actors| <= i < |Exec(es).value.actors| && LoggedOut(Exec(es).value.actors[i], id)
    ensures id in Exec(es).value.rows && !Live(Exec(es).value.rows, id)
    decreases |es|
  {
    var before := es[..|es| - 1];
    var s := Exec(before).value;
    assert before[..k] == es[..k];
    RowsStay(before, k, id);
    ReachableInv(before);
    if k == |before| {
      assert before[..k] == before;
    } else if i < |s.actors| && LoggedOut(s.actors[i], id) {
      LogoutIsFinal(before, k, i, id);
    }
    LogoutStep(s, es[|es| - 1], i, id);
  }

  /** No session row is ever deleted. */
  lemma {:induction false} RowsStay(es: seq<Event>, k: nat, id: SessionId)
    requires k <= |es| && Exec(es).Some? && Exec(es[..k]).Some? && id in Exec(es[..k]).value.rows
    ensures id in Exec(es).value.rows
    decreases |es|
  {
    if k == |es| {
      assert es[..k] == es;
    } else {
      assert es[..|es| - 1][..k] == es[..k];
      RowsStay(es[..|es| - 1], k, id);
    }
  }

  // --- what a detected reuse achieves ------------------------------------------------

  /** A revocation blocks what its snapshot saw: the family ends dead if no live session escaped it. */
  lemma RevocationBlocks(s: State, i: nat)
    requires Inv(s) && i < |s.actors| && Revoking(s.actors[i]) && s.actors[i].pc == Commit
    ensures var a := s.actors[i];
            Dead(Committed(s.rows, a), a.row.family) <==>
            forall id :: Live(s.rows, id) && s.rows[id].family == a.row.family ==> id in a.seen
  {
    var a := s.actors[i];
    assert ActorOk(s.rows, a);
    var after := Committed(s.rows, a);
    assert forall id :: Live(after, id) <==> Live(s.rows, id) && id !in a.seen;
  }

  predicate Leads(es: seq<Event>, s: State) {
    Exec(es) == Some(s)
  }

  lemma Then(es: seq<Event>, s: State, e: Event) returns (es': seq<Event>, s': State)
    requires Leads(es, s) && Legal(s, e)
    ensures Leads(es', s') && s' == Do(s, e)
  {
    es', s' := es + [e], Do(s, e);
    assert es'[..|es|] == es;
  }

  const LOGIN: Op := Login(1, 7, "a")
  const SPENT: Op := Refresh(1, "a", 2, "b")
  const HONEST: Op := Refresh(2, "b", 3, "c")
  const REPLAY: Op := Refresh(1, "a", 4, "d")

  lemma LoggedIn() returns (es: seq<Event>, s: State)
    ensures Leads(es, s) && s.clock == 0 && |s.actors| == 1 && s.actors[0].op == LOGIN && s.actors[0].held == {}
    ensures s.rows == map[1 := Root(1, 7, "a", 0)]
  {
    assert Leads([], START);
    es, s := Then([], START, Begin(LOGIN));
    es, s := Then(es, s, Act(0, true, 0));
    es, s := Then(es, s, Act(0, true, 0));
  }

  /** One family: session 1 rotated into session 2. */
  lemma RotatedOnce() returns (es: seq<Event>, s: State)
    ensures Leads(es, s) && s.clock == 0 && |s.actors| == 2
    ensures s.actors[0].op == LOGIN && s.actors[1].op == SPENT && s.actors[0].held == s.actors[1].held == {}
    ensures s.rows == map[1 := Root(1, 7, "a", 0).(blocked := true), 2 := Root(1, 7, "b", 0)]
  {
    es, s := LoggedIn();
    es, s := Then(es, s, Begin(SPENT));
    es, s := Then(es, s, Act(1, true, 0));
    assert s.actors[1].pc == Check && s.actors[1].row == Root(1, 7, "a", 0);
    es, s := Then(es, s, Act(1, true, 0));
    assert s.actors[1].pc == Commit;
    es, s := Then(es, s, Act(1, true, 0));
  }

  /** The honest client has rotated session 2 as far as its commit. */
  lemma HonestRotates() returns (es: seq<Event>, s: State)
    ensures Leads(es, s) && |s.actors| == 3 && s.clock == 0
    ensures s.rows == map[1 := Root(1, 7, "a", 0).(blocked := true), 2 := Root(1, 7, "b", 0)]
    ensures s.actors[0].held == s.actors[1].held == {}
    ensures NewId(s.actors[0].op) == Some(1) && NewId(s.actors[1].op) == Some(2)
    ensures s.actors[2].op == HONEST && s.actors[2].pc == Commit && s.actors[2].held == {2} && s.actors[2].blocks == {2}
    ensures s.actors[2].added == Some((3, Root(1, 7, "c", 0)))
  {
    es, s := RotatedOnce();
    es, s := Then(es, s, Begin(HONEST));
    es, s := Then(es, s, Act(2, true, 0));
    assert s.actors[2].pc == Check && s.actors[2].row == Root(1, 7, "b", 0);
    es, s := Then(es, s, Act(2, true, 0));
  }

  /** The spent token is presented again, and its refresh locks and reads the blocked session 1. */
  lemma Replayed() returns (es: seq<Event>, s: State)
    ensures Leads(es, s) && |s.actors| == 4
    ensures s.rows == map[1 := Root(1, 7, "a", 0).(blocked := true), 2 := Root(1, 7, "b", 0)]
    ensures s.actors[0].held == s.actors[1].held == {}
    ensures s.actors[2].op == HONEST && s.actors[2].pc == Commit && s.actors[2].held == {2} && s.actors[2].blocks == {2}
    ensures s.actors[2].added == Some((3, Root(1, 7, "c", 0)))
    ensures s.actors[3].op == REPLAY && s.actors[3].pc == Check
    ensures s.actors[3].held == {1} && s.actors[3].row == s.rows[1]
    ensures s.actors[3].blocks == {} && s.actors[3].added == None
  {
    es, s := HonestRotates();
    es, s := Then(es, s, Begin(REPLAY));
    es, s := Then(es, s, Act(3, true, 0));
  }

  /** The reuse is detected, and the family UPDATE has seen two rows. */
  lemma Scanned() returns (es: seq<Event>, s: State)
    ensures Leads(es, s) && |s.actors| == 4
    ensures s.rows == map[1 := Root(1, 7, "a", 0).(blocked := true), 2 := Root(1, 7, "b", 0)]
    ensures s.actors[0].held == s.actors[1].held == {}
    ensures s.actors[2].op == HONEST && s.actors[2].pc == Commit && s.actors[2].held == {2} && s.actors[2].blocks == {2}
    ensures s.actors[2].added == Some((3, Root(1, 7, "c", 0)))
    ensures s.actors[3].op == REPLAY && s.actors[3].pc == Sweep
    ensures s.actors[3].held == {1} && s.actors[3].row.family == 1
    ensures s.actors[3].seen == {1, 2} && s.actors[3].todo == {1, 2}
    ensures s.actors[3].blocks == {} && s.actors[3].added == None
  {
    es, s := Replayed();
    es, s := Then(es, s, Act(3, true, 0));
    assert s.actors[3].pc == Scan;
    es, s := Then(es, s, Act(3, true, 0));
  }

  /** It has blocked the first of them and waits for the other. */
  lemma Overlapping() returns (es: seq<Event>, s: State)
    ensures Leads(es, s) && |s.actors| == 4
    ensures s.rows == map[1 := Root(1, 7, "a", 0).(blocked := true), 2 := Root(1, 7, "b", 0)]
    ensures s.actors[0].held == s.actors[1].held == {}
    ensures s.actors[2].op == HONEST && s.actors[2].pc == Commit && s.actors[2].held == {2} && s.actors[2].blocks == {2}
    ensures s.actors[2].added == Some((3, Root(1, 7, "c", 0)))
    ensures s.actors[3].op == REPLAY && s.actors[3].pc == Sweep
    ensures s.actors[3].held == {1} && s.actors[3].row.family == 1
    ensures s.actors[3].seen == {1, 2} && s.actors[3].todo == {2}
    ensures s.actors[3].blocks == {1} && s.actors[3].added == None
  {
    es, s := Scanned();
    es, s := Then(es, s, Act(3, true, 1));
  }

  /** A schedule in which a reuse is detected and its family is still alive afterwards: the family
      UPDATE cannot see the session that a concurrent rotation has not committed yet. */
  lemma ReuseDetectedButAlive() returns (es: seq<Event>, s: State)
    ensures Exec(es) == Some(s) && 3 < |s.actors|
    ensures s.actors[3].op == REPLAY && s.actors[3].pc == Done(ReuseDetected)
    ensures Live(s.rows, 3) && s.rows[3].family == 1
  {
    es, s := Overlapping();
    es, s := Then(es, s, Act(2, true, 0));
    assert s.rows[3] == Root(1, 7, "c", 0) && s.actors[2].held == {};
    es, s := Then(es, s, Act(3, true, 2));
    es, s := Then(es, s, Act(3, true, 0));
    assert s.actors[3].pc == Commit && s.actors[3].blocks == {1, 2};
    es, s := Then(es, s, Act(3, true, 0));
  }
}
