/** The auth service's session calls over mutable stores: each statement is one store call, in
    the source's order, with the source's early returns. */
module SessionService {
  import opened Basics
  import opened SessionMachine
  import opened SessionSafety

  class Service {
    const refreshTTL: int
    var now: int
    var rows: map<SessionId, Row>
    var issued: map<Hash, Claims>
    var revoked: map<Hash, int>
    var active: map<SessionId, int>
    var members: map<UserId, Members>
    var inactive: map<SessionId, int>

    constructor (refreshTTL: int, now: int)
      ensures View() == Initial(refreshTTL, now) && Base(View())
    {
      this.refreshTTL, this.now := refreshTTL, now;
      rows, issued, revoked, active, members, inactive := map[], map[], map[], map[], map[], map[];
    }

    ghost function View(): State
      reads this
    {
      State(refreshTTL, now, rows, issued, revoked, active, members, inactive)
    }

    /** One pipeline: SET of the marker, SADD and EXPIRE of the user's set. */
    method MarkActive(user: UserId, sid: SessionId, ttl: int, effect: bool)
      modifies this`active, this`members
      ensures View() == if effect then SessionMachine.MarkActive(old(View()), user, sid, ttl) else old(View())
    {
      if effect {
        var ids := {};
        if user in members && now < members[user].until {
          ids := members[user].ids;
        }
        active := active[sid := now + ttl];
        members := members[user := Members(ids + {sid}, now + ttl)];
      }
    }

    /** SMEMBERS of the user's set, then one DEL of the listed markers and the set. */
    method RevokeAllActive(user: UserId, effect: bool)
      modifies this`active, this`members
      ensures View() == if effect then ClearAll(old(View()), user) else old(View())
    {
      if effect {
        var ids := {};
        if user in members && now < members[user].until {
          ids := members[user].ids;
        }
        active := active - ids;
        members := members - {user};
      }
    }

    method RevokeByUserID(user: UserId, effect: bool)
      modifies this`rows
      ensures View() == if effect then RevokeRows(old(View()), user) else old(View())
    {
      if effect {
        rows := map sid | sid in rows :: if rows[sid].user == user then rows[sid].(revoked := true) else rows[sid];
      }
    }

    method FindByRefreshTokenHash(h: Hash) returns (found: Option<(SessionId, Row)>)
      requires Base(View())
      ensures found.Some? <==> FindByHash(View(), h).Some?
      ensures found.Some? ==> FindByHash(View(), h).value == found.value.0 && rows[found.value.0] == found.value.1
    {
      if sid :| sid in rows && rows[sid].hash == h && !rows[sid].revoked {
        assert HeldBy(View(), h, sid);
        HolderIsUnique(View(), h, sid, FindByHash(View(), h).value);
        return Some((sid, rows[sid]));
      }
      return None;
    }

    method Login(sid: SessionId, user: UserId, h: Hash, create: Outcome, mark: bool) returns (ok: bool)
      requires sid !in rows && sid !in inactive && h !in issued
      modifies this
      ensures View() == SessionMachine.Login(old(View()), sid, user, h, create, mark)
      ensures ok <==> create == Done
    {
      if create == Refused {
        return false;
      }
      issued := issued[h := Claims(user, sid, WholeSecond(now + refreshTTL))];
      rows := rows[sid := Row(user, h, now + refreshTTL, false)];
      if create == LostReply {
        return false;
      }
      MarkActive(user, sid, refreshTTL, mark);
      return true;
    }

    method HandleSuspiciousLogin(user: UserId, revoke: bool, clear: bool)
      modifies this`rows, this`active, this`members
      ensures View() == EndSessions(old(View()), user, revoke, clear)
    {
      RevokeByUserID(user, revoke);
      RevokeAllActive(user, clear);
    }

    /** Rotation with reuse detection. */
    method RefreshToken(h: Hash, next: Hash, c: RefreshCalls) returns (answer: Answer)
      requires Base(View()) && next !in issued
      modifies this
      ensures (View(), answer) == Refresh(old(View()), h, next, c)
    {
      hide Base, RowOk, ClaimOk, MarkerOk, DeadOk;
      if h !in issued || issued[h].expiresAt <= now {
        return TokenInvalid;
      }
      var claims := issued[h];
      if !c.isRevoked {
        return TokenInvalid;
      }
      if h in revoked && now < revoked[h] {
        HandleSuspiciousLogin(claims.user, c.revokeRows, c.clear);
        return TokenInvalid;
      }
      if !c.find {
        return Failed;
      }
      var found := FindByRefreshTokenHash(h);
      if found.None? {
        return TokenInvalid;
      }
      var (sid, session) := found.value;
      if session.expiresAt < now {
        return TokenExpired;
      }
      if session.user != claims.user || sid != claims.session {
        return TokenInvalid;
      }
      if c.update == Refused {
        return Failed;
      }
      issued := issued[next := Claims(claims.user, sid, WholeSecond(now + refreshTTL))];
      rows := rows[sid := rows[sid].(hash := next, expiresAt := now + refreshTTL)];
      if c.update == LostReply {
        return Failed;
      }
      if c.mark && 0 < session.expiresAt - now {
        revoked := revoked[h := now + (session.expiresAt - now)];
      }
      MarkActive(session.user, sid, refreshTTL, c.markActive);
      return Tokens(next);
    }

    method Logout(sid: SessionId, user: UserId, revoke: Outcome, clear: bool) returns (ok: bool)
      modifies this
      ensures View() == SessionMachine.Logout(old(View()), sid, user, revoke, clear)
      ensures ok <==> revoke == Done
    {
      if revoke != Refused && sid in rows {
        rows := rows[sid := rows[sid].(revoked := true)];
      }
      if revoke != Done {
        return false;
      }
      if clear {
        active := active - {sid};
        if user in members {
          members := members[user := members[user].(ids := members[user].ids - {sid})];
        }
      }
      return true;
    }

    method LogoutAll(user: UserId, revoke: Outcome, clear: bool) returns (ok: bool)
      modifies this
      ensures View() == SessionMachine.LogoutAll(old(View()), user, revoke, clear)
      ensures ok <==> revoke == Done
    {
      RevokeByUserID(user, revoke != Refused);
      if revoke != Done {
        return false;
      }
      RevokeAllActive(user, clear);
      return true;
    }

    /** What ChangePIN and ChangeAccessCode do to sessions once the new credential is stored. */
    method EndAllSessions(user: UserId, revoke: bool, clear: bool)
      modifies this
      ensures View() == EndSessions(old(View()), user, revoke, clear)
    {
      RevokeByUserID(user, revoke);
      RevokeAllActive(user, clear);
    }

    method IsSessionActive(sid: SessionId, c: CheckCalls) returns (verdict: Verdict)
      modifies this`active, this`members, this`inactive
      ensures (View(), verdict) == Check(old(View()), sid, c)
      ensures Base(old(View())) && Honest(old(View())) && verdict != Unknown ==>
                (verdict == Active <==> sid in rows && !rows[sid].revoked && now < rows[sid].expiresAt)
      ensures verdict == Unknown <==>
              && !c.find && !(c.isActive && Holds(old(active), sid, now))
              && !(c.isInactive && Holds(old(inactive), sid, now))
    {
      ghost var s := View();
      if Base(s) {
        AnswersExactly(s);
      }
      if c.isActive && sid in active && now < active[sid] {
        return Active;
      }
      if c.isInactive && sid in inactive && now < inactive[sid] {
        return Inactive;
      }
      if !c.find {
        return Unknown;
      }
      if sid !in rows || rows[sid].revoked || rows[sid].expiresAt <= now {
        if c.mark {
          inactive := inactive[sid := now + DEAD_MARKER_TTL];
        }
        return Inactive;
      }
      var ttl := rows[sid].expiresAt - now;
      if ttl > 0 {
        MarkActive(rows[sid].user, sid, ttl, c.mark);
      }
      return Active;
    }
  }

  /** The hash column is unique, as far as the table's own history goes. */
  lemma HolderIsUnique(s: State, h: Hash, x: SessionId, y: SessionId)
    requires Base(s) && HeldBy(s, h, x) && HeldBy(s, h, y)
    ensures x == y
  {
    assert RowOk(s, x) && RowOk(s, y);
  }
}
