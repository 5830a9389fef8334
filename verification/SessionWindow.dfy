/** When a detected reuse ends the family: what commits between the snapshot of the family UPDATE and
    the commit of the revocation decides it. */
module SessionWindow {
  import opened Tables
  import opened SessionFamilies
  import opened SessionRaces

  // --- the events of the window ------------------------------------------------

  predicate Commits(s: State, e: Event) {
    e.Act? && e.actor < |s.actors| && s.actors[e.actor].pc == Commit
  }

  /** A rotation of the family commits. */
  predicate Rotates(s: State, e: Event, family: SessionId) {
    Commits(s, e) && Rotating(s.actors[e.actor]) && s.actors[e.actor].row.family == family
  }

  /** A logout from the family, or a revocation of it by a transaction other than i, commits. */
  predicate Closes(s: State, e: Event, i: nat, family: SessionId) {
    && Commits(s, e) && e.actor != i
    && var a := s.actors[e.actor];
       || (a.op.Leave? && a.op.id in s.rows && s.rows[a.op.id].family == family)
       || (Revoking(a) && a.row.family == family)
  }

  ghost predicate AllSeen(rows: Rows, family: SessionId, seen: set<SessionId>) {
    forall id :: Live(rows, id) && rows[id].family == family ==> id in seen
  }

  predicate Known(rows: Rows, family: SessionId, seen: set<SessionId>) {
    family in rows && seen <= rows.Keys
  }

  lemma KnownStays(s: State, e: Event, family: SessionId, seen: set<SessionId>)
    requires Legal(s, e) && Known(s.rows, family, seen)
    ensures Known(Do(s, e).rows, family, seen)
  {
  }

  // --- schedules -------------------------------------------------------------------

  /** The state before the last event. */
  function Before(es: seq<Event>): State
    requires es != []
  {
    match Exec(es[..|es| - 1])
    case Some(s) => s
    case None => START
  }

  /** After the first k events, a rotation of the family commits. */
  predicate RotatedSince(es: seq<Event>, k: nat, family: SessionId) {
    k < |es| && (Rotates(Before(es), es[|es| - 1], family) || RotatedSince(es[..|es| - 1], k, family))
  }

  /** After the first k events, a logout from the family or another revocation of it commits. */
  predicate ClosedSince(es: seq<Event>, k: nat, i: nat, family: SessionId) {
    k < |es| && (Closes(Before(es), es[|es| - 1], i, family) || ClosedSince(es[..|es| - 1], k, i, family))
  }

  // --- the revoking transaction -------------------------------------------------------

  predicate Sweeping(s: State, i: nat, family: SessionId, seen: set<SessionId>) {
    && i < |s.actors| && Revoking(s.actors[i]) && s.actors[i].row.family == family && s.actors[i].seen == seen
    && Known(s.rows, family, seen)
  }

  predicate Ended(s: State, i: nat) {
    i < |s.actors| && s.actors[i].pc.Done?
  }

  lemma SweepStays(s: State, e: Event, i: nat, family: SessionId, seen: set<SessionId>)
    requires Inv(s) && Legal(s, e) && Sweeping(s, i, family, seen)
    ensures Ended(Do(s, e), i) || Sweeping(Do(s, e), i, family, seen)
    ensures Commits(s, e) && e.actor == i ==> Ended(Do(s, e), i)
  {
    assert ActorOk(s.rows, s.actors[i]);
    KnownStays(s, e, family, seen);
  }

  lemma EndStays(s: State, e: Event, i: nat)
    requires Legal(s, e) && Ended(s, i)
    ensures Ended(Do(s, e), i)
  {
  }

  /** Until it ends, a revocation works on what it saw. */
  lemma {:induction false} SweepLasts(es: seq<Event>, k: nat, i: nat, family: SessionId, seen: set<SessionId>)
    requires k <= |es| && Exec(es).Some? && Exec(es[..k]).Some? && Sweeping(Exec(es[..k]).value, i, family, seen)
    ensures Ended(Exec(es).value, i) || Sweeping(Exec(es).value, i, family, seen)
    decreases |es|
  {
    if k == |es| {
      assert es[..k] == es;
    } else {
      var s, e := Before(es), es[|es| - 1];
      assert es[..|es| - 1][..k] == es[..k];
      SweepLasts(es[..|es| - 1], k, i, family, seen);
      if Ended(s, i) {
        EndStays(s, e, i);
      } else {
        ReachableInv(es[..|es| - 1]);
        SweepStays(s, e, i, family, seen);
      }
    }
  }

  // --- the session that escapes --------------------------------------------------------

  /** A logout of the session, or a revocation that saw it, commits. */
  predicate Catches(s: State, e: Event, id: SessionId) {
    && Commits(s, e)
    && var a := s.actors[e.actor];
       (a.op.Leave? && a.op.id == id) || (Revoking(a) && id in a.seen)
  }

  /** What the commits after the first k events make of the family: each rotation lets its new session
      escape, until a logout of that session or another revocation catches it. */
  function Escaped(es: seq<Event>, k: nat, family: SessionId): Option<SessionId> {
    if |es| <= k then None
    else
      var s, e, earlier := Before(es), es[|es| - 1], Escaped(es[..|es| - 1], k, family);
      if Rotates(s, e, family) then Some(s.actors[e.actor].op.newId)
      else if earlier.Some? && Catches(s, e, earlier.value) then None
      else earlier
  }

  /** The live sessions of the family that the snapshot has not seen: this one, or none. */
  ghost predicate Escapes(rows: Rows, family: SessionId, seen: set<SessionId>, escaped: Option<SessionId>) {
    forall id :: Live(rows, id) && rows[id].family == family && id !in seen <==> escaped == Some(id)
  }

  lemma RotationReplaces(s: State, e: Event, i: nat, family: SessionId, seen: set<SessionId>)
    requires Inv(s) && Legal(s, e) && Sweeping(s, i, family, seen) && Rotates(s, e, family)
    ensures Escapes(Do(s, e).rows, family, seen, Some(s.actors[e.actor].op.newId))
  {
    var a := s.actors[e.actor];
    assert ActorOk(s.rows, a);
    assert Live(s.rows, a.op.id);
    var after := Committed(s.rows, a);
    forall id | Live(after, id) && after[id].family == family ensures id == a.op.newId {
      assert id == a.op.newId || Live(s.rows, id);
    }
  }

  lemma CatchRemoves(s: State, e: Event, i: nat, family: SessionId, seen: set<SessionId>, escaped: Option<SessionId>)
    requires Inv(s) && Legal(s, e) && Sweeping(s, i, family, seen) && !(Commits(s, e) && e.actor == i)
    requires Escapes(s.rows, family, seen, escaped) && !Rotates(s, e, family)
    ensures Escapes(Do(s, e).rows, family, seen,
                    if escaped.Some? && Catches(s, e, escaped.value) then None else escaped)
  {
    if Commits(s, e) {
      var a := s.actors[e.actor];
      assert ActorOk(s.rows, a);
      var after := Committed(s.rows, a);
      forall id ensures Live(after, id) && after[id].family == family && id !in seen <==>
                        Live(s.rows, id) && s.rows[id].family == family && id !in seen && !Catches(s, e, id)
      {
        if Live(after, id) && after[id].family == family {
          assert Live(s.rows, id);
        }
      }
    }
  }

  lemma {:induction false} EscapedEscapes(es: seq<Event>, k: nat, i: nat, family: SessionId, seen: set<SessionId>)
    requires k <= |es| && Exec(es).Some? && Exec(es[..k]).Some? && Sweeping(Exec(es[..k]).value, i, family, seen)
    requires AllSeen(Exec(es[..k]).value.rows, family, seen) && !Ended(Exec(es).value, i)
    ensures Escapes(Exec(es).value.rows, family, seen, Escaped(es, k, family))
    decreases |es|
  {
    if k == |es| {
      assert es[..k] == es;
    } else {
      var s, e := Before(es), es[|es| - 1];
      assert es[..|es| - 1][..k] == es[..k];
      if Ended(s, i) {
        EndStays(s, e, i);
      } else {
        EscapedEscapes(es[..|es| - 1], k, i, family, seen);
        SweepLasts(es[..|es| - 1], k, i, family, seen);
        ReachableInv(es[..|es| - 1]);
        SweepStays(s, e, i, family, seen);
        if Rotates(s, e, family) {
          RotationReplaces(s, e, i, family, seen);
        } else {
          CatchRemoves(s, e, i, family, seen, Escaped(es[..|es| - 1], k, family));
        }
      }
    }
  }

  // --- the theorem ---------------------------------------------------------------------

  /** The k-th event is transaction i taking the snapshot of its family UPDATE. */
  predicate Snapshots(es: seq<Event>, k: nat, i: nat) {
    && 0 < k <= |es| && Exec(es[..k]).Some? && Exec(es[..k - 1]).Some?
    && es[k - 1].Act? && es[k - 1].actor == i && i < |Exec(es[..k - 1]).value.actors|
    && Exec(es[..k - 1]).value.actors[i].pc == Scan
  }

  lemma SnapshotSees(es: seq<Event>, k: nat, i: nat)
    requires Snapshots(es, k, i)
    ensures var s := Exec(es[..k]).value;
            && i < |s.actors| && Sweeping(s, i, s.actors[i].row.family, s.actors[i].seen)
            && AllSeen(s.rows, s.actors[i].row.family, s.actors[i].seen)
  {
    var s := Exec(es[..k - 1]).value;
    assert es[..k][..k - 1] == es[..k - 1];
    ReachableInv(es[..k - 1]);
    assert ActorOk(s.rows, s.actors[i]);
  }

  /** The documentation promises that one detection revokes the whole chain. It does exactly when every
      session that a rotation adds between the snapshot of the family UPDATE and the commit of the
      revocation is rotated, logged out or caught by another revocation before that commit. */
  lemma RevocationEnds(es: seq<Event>, k: nat, i: nat)
    requires Exec(es).Some? && Snapshots(es, k, i)
    requires i < |Exec(es).value.actors| && Exec(es).value.actors[i].pc == Commit
    ensures var s := Exec(es).value;
            var family := s.actors[i].row.family;
            Dead(Committed(s.rows, s.actors[i]), family) <==> Escaped(es, k, family) == None
  {
    var s0, s := Exec(es[..k]).value, Exec(es).value;
    SnapshotSees(es, k, i);
    var family, seen := s0.actors[i].row.family, s0.actors[i].seen;
    SweepLasts(es, k, i, family, seen);
    EscapedEscapes(es, k, i, family, seen);
    ReachableInv(es);
    RevocationBlocks(s, i);
  }

  lemma {:induction false} EscapedIfRotated(es: seq<Event>, k: nat, i: nat, family: SessionId, seen: set<SessionId>)
    requires k <= |es| && Exec(es).Some? && Exec(es[..k]).Some? && Sweeping(Exec(es[..k]).value, i, family, seen)
    requires AllSeen(Exec(es[..k]).value.rows, family, seen) && !Ended(Exec(es).value, i)
    requires !ClosedSince(es, k, i, family)
    ensures Escaped(es, k, family).Some? <==> RotatedSince(es, k, family)
    decreases |es|
  {
    if k < |es| {
      var s, e := Before(es), es[|es| - 1];
      assert es[..|es| - 1][..k] == es[..k];
      if Ended(s, i) {
        EndStays(s, e, i);
      } else {
        EscapedIfRotated(es[..|es| - 1], k, i, family, seen);
        EscapedEscapes(es[..|es| - 1], k, i, family, seen);
        SweepLasts(es[..|es| - 1], k, i, family, seen);
        ReachableInv(es[..|es| - 1]);
        SweepStays(s, e, i, family, seen);
        var earlier := Escaped(es[..|es| - 1], k, family);
        if earlier.Some? && Catches(s, e, earlier.value) {
          OnlyClosersCatch(s, e, i, family, seen, earlier);
        }
      }
    }
  }

  lemma OnlyClosersCatch(s: State, e: Event, i: nat, family: SessionId, seen: set<SessionId>,
                         escaped: Option<SessionId>)
    requires Inv(s) && Legal(s, e) && Sweeping(s, i, family, seen) && !(Commits(s, e) && e.actor == i)
    requires Escapes(s.rows, family, seen, escaped) && escaped.Some? && Catches(s, e, escaped.value)
    ensures Closes(s, e, i, family)
  {
    assert ActorOk(s.rows, s.actors[e.actor]);
    assert Live(s.rows, escaped.value);
  }

  /** So, if no logout from the family and no other revocation of it commits in between, the family ends
      dead if and only if no rotation of it commits in between. */
  lemma RotationDecides(es: seq<Event>, k: nat, i: nat)
    requires Exec(es).Some? && Snapshots(es, k, i)
    requires i < |Exec(es).value.actors| && Exec(es).value.actors[i].pc == Commit
    requires !ClosedSince(es, k, i, Exec(es).value.actors[i].row.family)
    ensures var s := Exec(es).value;
            var family := s.actors[i].row.family;
            Dead(Committed(s.rows, s.actors[i]), family) <==> !RotatedSince(es, k, family)
  {
    SnapshotSees(es, k, i);
    var a := Exec(es[..k]).value.actors[i];
    SweepLasts(es, k, i, a.row.family, a.seen);
    EscapedIfRotated(es, k, i, a.row.family, a.seen);
    RevocationEnds(es, k, i);
  }
}
