/** Refresh-token families: rotation, reuse detection and logout, each as one atomic step, and the
    session table object whose methods perform them. */
module SessionFamilies {
  import opened Tables

  type SessionId = nat
  type Digest = string

  datatype Row = Row(family: SessionId, user: UserId, digest: Digest, blocked: bool, expires: int)
  type Rows = map<SessionId, Row>

  // Lost: cut off before it could answer.
  datatype Answer = Issued(id: SessionId) | Rotated(id: SessionId) | ReuseDetected | InvalidToken | Closed | Lost

  // 7 days in microseconds.
  const REFRESH_LIFETIME: int := 7 * 24 * 3600 * 1_000_000

  predicate Live(rows: Rows, id: SessionId) {
    id in rows && !rows[id].blocked
  }

  /** UPDATE sessions SET is_blocked = true WHERE id IN ids. */
  function Block(rows: Rows, ids: set<SessionId>): Rows {
    map id | id in rows :: if id in ids then rows[id].(blocked := true) else rows[id]
  }

  function Members(rows: Rows, family: SessionId): set<SessionId> {
    set id | id in rows && rows[id].family == family
  }

  function Root(id: SessionId, user: UserId, digest: Digest, now: int): Row {
    Row(id, user, digest, false, now + REFRESH_LIFETIME)
  }

  function Descendant(parent: Row, digest: Digest, now: int): Row {
    Row(parent.family, parent.user, digest, false, now + REFRESH_LIFETIME)
  }

  datatype Standing = Compromised | Overdue | Orphan | Good

  /** The checks on the locked row, in order. */
  function Judge(r: Row, presented: Digest, now: int, active: bool): Standing {
    if r.blocked then Compromised
    else if r.expires <= now then Overdue
    else if presented != r.digest then Compromised
    else if !active then Orphan
    else Good
  }

  function Rotate(rows: Rows, id: SessionId, presented: Digest, newId: SessionId, newDigest: Digest, now: int,
                  active: bool): (Rows, Answer)
  {
    if id !in rows then (rows, InvalidToken)
    else
      match Judge(rows[id], presented, now, active)
      case Compromised => (Block(rows, Members(rows, rows[id].family)), ReuseDetected)
      case Overdue => (rows, InvalidToken)
      case Orphan => (rows, InvalidToken)
      case Good => (Block(rows, {id})[newId := Descendant(rows[id], newDigest, now)], Rotated(newId))
  }

  function Issue(rows: Rows, id: SessionId, user: UserId, digest: Digest, now: int): Rows {
    rows[id := Root(id, user, digest, now)]
  }

  function Logout(rows: Rows, id: SessionId): Rows {
    Block(rows, {id})
  }

  // --- what the table satisfies -------------------------------------------------

  /** At most one live session per family, and every family is named after its first session. */
  ghost predicate FamiliesOk(rows: Rows) {
    && (forall a, b :: Live(rows, a) && Live(rows, b) && rows[a].family == rows[b].family ==> a == b)
    && (forall id {:trigger rows[id].family} :: id in rows ==> rows[id].family in rows)
  }

  ghost predicate Dead(rows: Rows, family: SessionId) {
    family in rows && forall id :: Live(rows, id) ==> rows[id].family != family
  }

  lemma IssueKeeps(rows: Rows, id: SessionId, user: UserId, digest: Digest, now: int, family: SessionId)
    requires FamiliesOk(rows) && id !in rows
    ensures FamiliesOk(Issue(rows, id, user, digest, now))
    ensures Dead(rows, family) ==> Dead(Issue(rows, id, user, digest, now), family)
  {
    var after := Issue(rows, id, user, digest, now);
    assert forall s :: Live(after, s) ==> s == id || Live(rows, s);
  }

  lemma BlockKeeps(rows: Rows, ids: set<SessionId>, family: SessionId)
    requires FamiliesOk(rows)
    ensures FamiliesOk(Block(rows, ids))
    ensures Dead(rows, family) ==> Dead(Block(rows, ids), family)
  {
    assert forall s :: Live(Block(rows, ids), s) ==> Live(rows, s);
  }

  lemma MembersBlocked(rows: Rows, family: SessionId)
    requires family in rows
    ensures Dead(Block(rows, Members(rows, family)), family)
  {
  }

  lemma DescendFamilies(rows: Rows, id: SessionId, newId: SessionId, r: Row)
    requires FamiliesOk(rows) && Live(rows, id) && newId !in rows && r.family == rows[id].family && !r.blocked
    ensures FamiliesOk(Block(rows, {id})[newId := r])
  {
    var after := Block(rows, {id})[newId := r];
    forall a, b | Live(after, a) && Live(after, b) && after[a].family == after[b].family ensures a == b {
      assert a == newId || (Live(rows, a) && a != id);
      assert b == newId || (Live(rows, b) && b != id);
    }
  }

  lemma DescendDead(rows: Rows, id: SessionId, newId: SessionId, r: Row, family: SessionId)
    requires Live(rows, id) && newId !in rows && r.family == rows[id].family && Dead(rows, family)
    ensures Dead(Block(rows, {id})[newId := r], family)
  {
    var after := Block(rows, {id})[newId := r];
    forall s | Live(after, s) ensures after[s].family != family {
      assert s == newId || Live(rows, s);
    }
  }

  /** Whatever is presented, the table keeps at most one live session per family, and a family without
      a live session never has one again. */
  lemma RotateKeeps(rows: Rows, id: SessionId, presented: Digest, newId: SessionId, newDigest: Digest, now: int,
                    active: bool, family: SessionId)
    requires FamiliesOk(rows) && newId !in rows
    ensures var after := Rotate(rows, id, presented, newId, newDigest, now, active).0;
            FamiliesOk(after) && (Dead(rows, family) ==> Dead(after, family))
  {
    if id in rows {
      match Judge(rows[id], presented, now, active)
      case Compromised => BlockKeeps(rows, Members(rows, rows[id].family), family);
      case Overdue =>
      case Orphan =>
      case Good =>
        DescendFamilies(rows, id, newId, Descendant(rows[id], newDigest, now));
        if Dead(rows, family) {
          DescendDead(rows, id, newId, Descendant(rows[id], newDigest, now), family);
        }
    }
  }

  // 7 days in microseconds.
  const SEVEN_DAYS: int := 604_800_000_000

  /** Every answer of a rotation and what it does. A blocked session or, before the expiry, a wrong secret
      kills the family and no other; an unknown, expired or orphaned one is refused without effect; what is
      left is granted, retires exactly that session and adds a successor of the same family and user. */
  lemma RotateAnswers(rows: Rows, id: SessionId, presented: Digest, newId: SessionId, newDigest: Digest, now: int,
                      active: bool)
    requires newId !in rows && (id in rows ==> rows[id].family in rows)
    ensures var (after, answer) := Rotate(rows, id, presented, newId, newDigest, now, active);
            && (answer == Rotated(newId) <==>
                  Live(rows, id) && rows[id].digest == presented && now < rows[id].expires && active)
            && (answer == ReuseDetected <==>
                  id in rows && (rows[id].blocked || (now < rows[id].expires && presented != rows[id].digest)))
            && (answer.Rotated? || answer == ReuseDetected || answer == InvalidToken)
            && (answer.Rotated? ==>
                  && answer.id == newId && after.Keys == rows.Keys + {newId}
                  && after[newId] == Row(rows[id].family, rows[id].user, newDigest, false, now + SEVEN_DAYS)
                  && forall s <- rows :: after[s] == if s == id then rows[s].(blocked := true) else rows[s])
            && (answer == ReuseDetected ==>
                  && after.Keys == rows.Keys && Dead(after, rows[id].family)
                  && forall s <- rows ::
                       after[s] == if rows[s].family == rows[id].family then rows[s].(blocked := true) else rows[s])
            && (answer == InvalidToken ==> after == rows)
  {
    if id in rows {
      MembersBlocked(rows, rows[id].family);
    }
  }

  /** A login adds one live session, the first of its family. */
  lemma IssueAnswers(rows: Rows, id: SessionId, user: UserId, digest: Digest, now: int)
    requires id !in rows
    ensures Issue(rows, id, user, digest, now) == rows[id := Row(id, user, digest, false, now + SEVEN_DAYS)]
  {
  }

  /** Logging out ends the session and touches no other; its token, presented later, is a detected reuse. */
  lemma LogoutEnds(rows: Rows, id: SessionId, presented: Digest, newId: SessionId, newDigest: Digest, now: int,
                   active: bool)
    ensures var after := Logout(rows, id);
            && after.Keys == rows.Keys && !Live(after, id)
            && (forall s <- rows :: after[s] == if s == id then rows[s].(blocked := true) else rows[s])
            && (id in rows ==> Rotate(after, id, presented, newId, newDigest, now, active).1 == ReuseDetected)
  {
  }

  /** A token that was rotated away is never accepted again: presenting it kills the family. */
  lemma SpentTokenKills(rows: Rows, id: SessionId, presented: Digest, newId: SessionId, newDigest: Digest, now: int,
                        active: bool)
    requires id in rows && rows[id].blocked
    ensures var (after, answer) := Rotate(rows, id, presented, newId, newDigest, now, active);
            answer == ReuseDetected && forall s <- after :: after[s].family == rows[id].family ==> after[s].blocked
  {
  }

  // --- the table as an object ------------------------------------------------------

  class SessionTable {
    var rows: Rows

    constructor ()
      ensures rows == map[] && FamiliesOk(rows)
    {
      rows := map[];
    }

    method IssueTokens(id: SessionId, user: UserId, digest: Digest, now: int)
      modifies this
      ensures rows == Issue(old(rows), id, user, digest, now)
    {
      rows := rows[id := Row(id, user, digest, false, now + REFRESH_LIFETIME)];
    }

    method RevokeFamily(family: SessionId)
      modifies this
      ensures rows == Block(old(rows), Members(old(rows), family))
    {
      rows := map id | id in rows :: if rows[id].family == family then rows[id].(blocked := true) else rows[id];
    }

    method RotateTokens(id: SessionId, presented: Digest, newId: SessionId, newDigest: Digest, now: int, active: bool)
      returns (answer: Answer)
      modifies this
      ensures (rows, answer) == Rotate(old(rows), id, presented, newId, newDigest, now, active)
    {
      if id !in rows {
        return InvalidToken;
      }
      var session := rows[id];
      if session.blocked {
        RevokeFamily(session.family);
        return ReuseDetected;
      }
      if session.expires <= now {
        return InvalidToken;
      }
      if presented != session.digest {
        RevokeFamily(session.family);
        return ReuseDetected;
      }
      if !active {
        return InvalidToken;
      }
      ghost var before := rows;
      rows := rows[id := session.(blocked := true)];
      assert rows == Block(before, {id});
      rows := rows[newId := Row(session.family, session.user, newDigest, false, now + REFRESH_LIFETIME)];
      return Rotated(newId);
    }

    method LogOut(id: SessionId)
      modifies this
      ensures rows == Logout(old(rows), id)
    {
      ghost var before := rows;
      if id in rows {
        rows := rows[id := rows[id].(blocked := true)];
      }
      assert rows == Block(before, {id});
    }
  }
}
