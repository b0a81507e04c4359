/** What the session calls answer and leave behind, read off the table and the cache they find. */
module SessionOutcomes {
  import opened Basics
  import opened SessionMachine
  import opened SessionSafety
  import Overlap = SessionOverlap

  // --- Checks ---

  /** A marker is read and stands. */
  predicate Marked(s: State, sid: SessionId, c: CheckCalls) {
    (c.isActive && Holds(s.active, sid, s.now)) || (c.isInactive && Holds(s.inactive, sid, s.now))
  }

  /** The check asks the table, and the table answers. */
  predicate AsksTable(s: State, sid: SessionId, c: CheckCalls) { !Marked(s, sid, c) && c.find }

  /** A check has no verdict if and only if it reads no marker that stands and cannot read the table; a
      live marker comes before a dead one, and without either the row decides. */
  lemma VerdictsExactly(s: State, sid: SessionId, c: CheckCalls)
    ensures var verdict := Check(s, sid, c).1;
      && (verdict == Unknown <==> !Marked(s, sid, c) && !c.find)
      && (verdict == Active <==>
          (c.isActive && Holds(s.active, sid, s.now)) || (AsksTable(s, sid, c) && Live(s, sid)))
      && (verdict == Inactive <==>
          || (Marked(s, sid, c) && !(c.isActive && Holds(s.active, sid, s.now)))
          || (AsksTable(s, sid, c) && !Live(s, sid)))
  {}

  /** The same for the first half of a check that others come between. */
  lemma LooksExactly(s: State, sid: SessionId, c: CheckCalls)
    ensures var q := Overlap.Look(s, sid, c);
      && (q == Overlap.Judged(Unknown) <==> !Marked(s, sid, c) && !c.find)
      && (q == Overlap.Judged(Active) <==> c.isActive && Holds(s.active, sid, s.now))
      && (q == Overlap.Judged(Inactive) <==> Marked(s, sid, c) && !(c.isActive && Holds(s.active, sid, s.now)))
      && (q.Warming? <==> AsksTable(s, sid, c) && Live(s, sid))
      && (q.Burying? <==> AsksTable(s, sid, c) && !Live(s, sid))
      && (q.Warming? ==> q == Overlap.Warming(sid, s.rows[sid].user, s.rows[sid].expiresAt))
      && (q.Burying? ==> q == Overlap.Burying(sid))
  {}

  /** A check that has asked the table leaves its answer in the cache, if that write takes: for a minute
      the next check of a dead session needs no table, unless somebody has marked it live; and that of a
      live one needs none until the row expires. */
  lemma VerdictsAreRemembered(s: State, sid: SessionId, c: CheckCalls, t: State, later: CheckCalls)
    requires AsksTable(s, sid, c) && c.mark && s.now <= t.now
    requires var u := Check(s, sid, c).0; t.active == u.active && t.inactive == u.inactive
    ensures !Live(s, sid) && !Holds(t.active, sid, t.now) && later.isInactive && t.now < s.now + 60000 ==>
              Check(t, sid, later) == (t, Inactive)
    ensures Live(s, sid) && later.isActive && t.now < s.rows[sid].expiresAt ==> Check(t, sid, later) == (t, Active)
  {}

  /** And only such a check writes anything: one marker, and for a live one its place in the user's set. */
  lemma ChecksLeaveExactly(s: State, sid: SessionId, c: CheckCalls)
    ensures var t := Check(s, sid, c).0;
      && (t != s ==> AsksTable(s, sid, c) && c.mark)
      && (t.rows, t.issued, t.revoked, t.now) == (s.rows, s.issued, s.revoked, s.now)
      && (forall x :: x != sid ==> (x in t.active <==> x in s.active) && (x in s.active ==> t.active[x] == s.active[x]))
      && (forall x :: x != sid ==>
            (x in t.inactive <==> x in s.inactive) && (x in s.inactive ==> t.inactive[x] == s.inactive[x]))
      && (AsksTable(s, sid, c) && c.mark && Live(s, sid) ==>
            && sid in t.active && t.active[sid] == s.rows[sid].expiresAt && sid in Listed(t, s.rows[sid].user))
      && (AsksTable(s, sid, c) && c.mark && !Live(s, sid) ==> sid in t.inactive && t.inactive[sid] == s.now + 60000)
  {}

  // --- Refreshes ---

  /** Signed, unexpired, and the revoked set says it is not revoked. */
  predicate Presentable(s: State, h: Hash, c: RefreshCalls) {
    Verifies(s, h) && c.isRevoked && !Holds(s.revoked, h, s.now)
  }

  /** The answer of every refresh, in every state that runs reach: an error of a store is a failure, and
      everything else that is not the current token of its session is invalid. That the row has expired
      is never the answer to a token that verifies at the same moment, for a token does not outlive it. */
  lemma RefreshAnswersExactly(s: State, h: Hash, next: Hash, c: RefreshCalls)
    requires Base(s) && next !in s.issued
    ensures var answer := Refresh(s, h, next, c).1;
      && (answer == Tokens(next) <==> Presentable(s, h, c) && c.find && Exchanges(s, h) && c.update == Done)
      && (answer == Failed <==> Presentable(s, h, c) && (!c.find || (Exchanges(s, h) && c.update != Done)))
      && (answer == TokenInvalid <==> !Presentable(s, h, c) || (c.find && !Exchanges(s, h)))
      && answer != TokenExpired
  {
    hide EndSessions, Base;
    if Exchanges(s, h) {
      HolderIsClaimed(s, h);
    }
    NeverExpired(s, h, next, c);
    RefreshCases(s, h, next, c);
  }

  lemma NeverExpired(s: State, h: Hash, next: Hash, c: RefreshCalls)
    requires Base(s) && next !in s.issued
    ensures Refresh(s, h, next, c).1 != TokenExpired
  {
    if Verifies(s, h) && FindByHash(s, h).Some? {
      assert ClaimOk(s, h) && RowOk(s, FindByHash(s, h).value);
    }
  }

  /** A refresh that gives a token moves its session on to it, for another lifetime of the row, and does
      nothing else to the table; the old token is remembered as long as the row would have lived, and the
      session marked, when those writes take. */
  lemma RefreshLeaves(s: State, h: Hash, next: Hash, c: RefreshCalls)
    requires Base(s) && next !in s.issued && Refresh(s, h, next, c).1.Tokens?
    ensures var t := Refresh(s, h, next, c).0;
      var sid := s.issued[h].session;
      && h in s.issued && sid in s.rows && t.now == s.now && t.inactive == s.inactive
      && t.rows == s.rows[sid := Row(s.issued[h].user, next, s.now + s.refreshTTL, false)]
      && t.issued == s.issued[next := Claims(s.issued[h].user, sid, WholeSecond(s.now + s.refreshTTL))]
      && t.revoked == (if c.mark then s.revoked[h := s.rows[sid].expiresAt] else s.revoked)
      && t.active == (if c.markActive then s.active[sid := s.now + s.refreshTTL] else s.active)
      && (c.markActive ==> sid in Listed(t, s.issued[h].user) || s.refreshTTL <= 0)
  {
    hide Base, EndSessions, Refresh;
    RefreshCases(s, h, next, c);
    HolderIsClaimed(s, h);
  }

  /** The token given is good: as soon as it is given, and until the whole second in which the row
      expires, it can be exchanged in its turn, and no longer the one it replaces. */
  lemma ChainGoesOn(s: State, h: Hash, next: Hash, c: RefreshCalls, third: Hash, d: RefreshCalls)
    requires Base(s) && next !in s.issued && Refresh(s, h, next, c).1.Tokens? && s.refreshTTL >= 1000
    requires third !in s.issued && third != next && d.isRevoked && d.find && d.update == Done
    requires !Holds(s.revoked, next, s.now)
    ensures var t := Refresh(s, h, next, c).0;
      Refresh(t, next, third, d).1 == Tokens(third) && !Refresh(t, h, third, d).1.Tokens?
  {
    hide Base, EndSessions, Refresh;
    RefreshLeaves(s, h, next, c);
    RefreshKeepsBase(s, h, next, c);
    RefreshAnswersExactly(s, h, next, c);
    var t := Refresh(s, h, next, c).0;
    RefreshAnswersExactly(t, next, third, d);
    RefreshAnswersExactly(t, h, third, d);
  }

  // --- Logins and logouts ---

  /** A login that reaches the table begins a live session whose token can be exchanged; marked, it is
      answered active without the table until the row expires. No other session changes. */
  lemma LoginBegins(s: State, sid: SessionId, user: UserId, h: Hash, create: Outcome, mark: bool,
                    next: Hash, c: RefreshCalls)
    requires Base(s) && s.refreshTTL >= 1000 && sid !in s.rows && sid !in s.inactive && h !in s.issued
    requires create != Refused && !Holds(s.revoked, h, s.now)
    requires next !in s.issued && next != h && c.isRevoked && c.find && c.update == Done
    ensures var t := Login(s, sid, user, h, create, mark);
      && Live(t, sid) && t.rows == s.rows[sid := Row(user, h, s.now + s.refreshTTL, false)]
      && Refresh(t, h, next, c).1 == Tokens(next)
      && (create == Done && mark ==>
            forall u: State, d: CheckCalls {:trigger Check(u, sid, d)} ::
              u.active == t.active && u.now < s.now + s.refreshTTL && d.isActive ==> Check(u, sid, d).1 == Active)
  {
    hide Base, EndSessions, Refresh;
    LoginKeepsBase(s, sid, user, h, create, mark);
    RefreshAnswersExactly(Login(s, sid, user, h, create, mark), h, next, c);
  }

  /** A logout revokes its own row, and, if the statement is acknowledged and the deletion takes, deletes
      its own marker: no other row and no other marker changes. */
  lemma LogoutLeaves(s: State, sid: SessionId, user: UserId, revoke: Outcome, clear: bool)
    ensures var t := Logout(s, sid, user, revoke, clear);
      && t.rows.Keys == s.rows.Keys
      && (t.issued, t.revoked, t.inactive, t.now) == (s.issued, s.revoked, s.inactive, s.now)
      && (forall x :: x in s.rows ==>
            t.rows[x] == s.rows[x].(revoked := s.rows[x].revoked || (x == sid && revoke != Refused)))
      && (forall x :: x in t.active <==> x in s.active && !(x == sid && revoke == Done && clear))
      && (forall x :: x in t.active ==> t.active[x] == s.active[x])
  {
    LogoutRows(s, sid, user, revoke, clear);
    RevokedRows(s, sid);
    hide RevokeRow;
    if revoke != Refused {
      RevokeRowOnly(s, sid);
    }
  }

  lemma RevokeRowOnly(s: State, sid: SessionId)
    ensures RevokeRow(s, sid) == s.(rows := RevokeRow(s, sid).rows)
  {}

  lemma LogoutRows(s: State, sid: SessionId, user: UserId, revoke: Outcome, clear: bool)
    ensures Logout(s, sid, user, revoke, clear).rows == if revoke == Refused then s.rows else RevokeRow(s, sid).rows
  {
    hide RevokeRow;
  }

  lemma RevokedRows(s: State, sid: SessionId)
    ensures RevokeRow(s, sid).rows.Keys == s.rows.Keys
    ensures forall x :: x in s.rows ==>
              RevokeRow(s, sid).rows[x] == s.rows[x].(revoked := s.rows[x].revoked || x == sid)
  {}

  /** Ending all sessions of a user, after a replay, a logout everywhere or a change of credential,
      revokes that user's rows and deletes the markers the user's set lists, each half if it takes. */
  lemma EndingLeaves(s: State, user: UserId, revoke: bool, clear: bool)
    ensures var t := EndSessions(s, user, revoke, clear);
      && t.rows.Keys == s.rows.Keys
      && (t.issued, t.revoked, t.inactive, t.now) == (s.issued, s.revoked, s.inactive, s.now)
      && (forall x :: x in s.rows ==>
            t.rows[x] == s.rows[x].(revoked := s.rows[x].revoked || (s.rows[x].user == user && revoke)))
      && (forall x :: x in t.active <==> x in s.active && !(clear && x in Listed(s, user)))
      && (forall x :: x in t.active ==> t.active[x] == s.active[x])
      && (forall x :: x != user ==> Listed(t, x) == Listed(s, x))
  {}
}
