/** What every run of the session machine keeps, whatever fails and whatever the cache loses;
    exactly which steps make the cache lie; and what a rotated-out token can still do. */
module SessionSafety {
  import opened Basics
  import opened SessionMachine

  // --- Facts of every run ---

  predicate RowOk(s: State, sid: SessionId)
    requires sid in s.rows
  {
    var row := s.rows[sid];
    row.hash in s.issued && s.issued[row.hash].session == sid && row.expiresAt <= s.now + s.refreshTTL
  }

  predicate ClaimOk(s: State, h: Hash)
    requires h in s.issued
  {
    var c := s.issued[h];
    && c.session in s.rows && s.rows[c.session].user == c.user
    && (s.rows[c.session].hash == h ==> c.expiresAt <= s.rows[c.session].expiresAt)
  }

  /** A live marker never outlives the row's expiry. */
  predicate MarkerOk(s: State, sid: SessionId)
    requires sid in s.active
  {
    sid in s.rows && s.active[sid] <= s.rows[sid].expiresAt
  }

  /** A dead marker is only ever on a session that is dead for good. */
  predicate DeadOk(s: State, sid: SessionId) {
    sid in s.rows ==> s.rows[sid].revoked || s.rows[sid].expiresAt <= s.now
  }

  predicate Base(s: State) {
    && (forall sid {:trigger RowOk(s, sid)} :: sid in s.rows ==> RowOk(s, sid))
    && (forall h {:trigger ClaimOk(s, h)} :: h in s.issued ==> ClaimOk(s, h))
    && (forall sid {:trigger MarkerOk(s, sid)} :: sid in s.active ==> MarkerOk(s, sid))
    && (forall sid {:trigger DeadOk(s, sid)} :: sid in s.inactive ==> DeadOk(s, sid))
  }

  predicate RowRevokes(s: State, t: State, sid: SessionId)
    requires sid in s.rows && sid in t.rows
  {
    t.rows[sid] == s.rows[sid].(revoked := t.rows[sid].revoked) && (s.rows[sid].revoked ==> t.rows[sid].revoked)
  }

  /** The table changed only in which rows are revoked, and the cache only lost markers. */
  predicate Revokes(s: State, t: State) {
    && t.refreshTTL == s.refreshTTL && t.now == s.now && t.issued == s.issued && t.inactive == s.inactive
    && t.rows.Keys == s.rows.Keys && t.revoked == s.revoked
    && (forall sid {:trigger RowRevokes(s, t, sid)} :: sid in s.rows ==> RowRevokes(s, t, sid))
    && t.active.Keys <= s.active.Keys
    && (forall sid {:trigger t.active[sid]} :: sid in t.active ==> t.active[sid] == s.active[sid])
  }

  lemma RevokesKeepsBase(s: State, t: State)
    requires Base(s) && Revokes(s, t)
    ensures Base(t)
  {
    forall sid | sid in t.rows ensures RowOk(t, sid) {
      assert RowOk(s, sid) && RowRevokes(s, t, sid);
    }
    forall h | h in t.issued ensures ClaimOk(t, h) {
      assert ClaimOk(s, h) && RowRevokes(s, t, s.issued[h].session);
    }
    forall sid | sid in t.active ensures MarkerOk(t, sid) {
      assert MarkerOk(s, sid) && RowRevokes(s, t, sid);
    }
    forall sid | sid in t.inactive ensures DeadOk(t, sid) {
      assert DeadOk(s, sid);
      assert sid in s.rows ==> RowRevokes(s, t, sid);
    }
  }

  lemma MarkActiveKeepsBase(s: State, user: UserId, sid: SessionId, ttl: int)
    requires Base(s) && sid in s.rows && s.now + ttl <= s.rows[sid].expiresAt
    ensures Base(MarkActive(s, user, sid, ttl))
  {
    var t := MarkActive(s, user, sid, ttl);
    forall x | x in t.rows ensures RowOk(t, x) {
      assert RowOk(s, x);
    }
    forall h | h in t.issued ensures ClaimOk(t, h) {
      assert ClaimOk(s, h);
    }
    forall x | x in t.active ensures MarkerOk(t, x) {
      assert x == sid || MarkerOk(s, x);
    }
    forall x | x in t.inactive ensures DeadOk(t, x) {
      assert DeadOk(s, x);
    }
  }

  lemma CreateKeepsBase(s: State, sid: SessionId, user: UserId, h: Hash)
    requires Base(s) && sid !in s.rows && sid !in s.inactive && h !in s.issued
    ensures Base(Login(s, sid, user, h, Done, false))
  {
    var t := Login(s, sid, user, h, Done, false);
    forall x | x in t.rows ensures RowOk(t, x) {
      assert x == sid || RowOk(s, x);
    }
    forall g | g in t.issued ensures ClaimOk(t, g) {
      assert g == h || ClaimOk(s, g);
    }
    forall x | x in t.active ensures MarkerOk(t, x) {
      assert MarkerOk(s, x);
    }
    forall x | x in t.inactive ensures DeadOk(t, x) {
      assert DeadOk(s, x);
    }
  }

  lemma LoginKeepsBase(s: State, sid: SessionId, user: UserId, h: Hash, create: Outcome, mark: bool)
    requires Base(s)
    ensures Base(Login(s, sid, user, h, create, mark))
  {
    hide Base;
    if sid !in s.rows && sid !in s.inactive && h !in s.issued && create != Refused {
      CreateKeepsBase(s, sid, user, h);
      MarkActiveKeepsBase(Login(s, sid, user, h, Done, false), user, sid, s.refreshTTL);
    }
  }

  /** What a refresh that reaches the table finds: the token is the current one of a live row. */
  predicate Exchanges(s: State, h: Hash) {
    Verifies(s, h) && HeldBy(s, h, s.issued[h].session)
  }

  lemma HolderIsClaimed(s: State, h: Hash)
    requires Base(s) && Verifies(s, h)
    ensures FindByHash(s, h) == if HeldBy(s, h, s.issued[h].session) then Some(s.issued[h].session) else None
    ensures Exchanges(s, h) ==>
              var row := s.rows[s.issued[h].session];
              row.user == s.issued[h].user && s.now < row.expiresAt && s.issued[h].expiresAt <= row.expiresAt
  {
    var found := FindByHash(s, h);
    if found.Some? {
      assert RowOk(s, found.value);
    }
    assert ClaimOk(s, h);
  }

  predicate Replays(s: State, h: Hash, c: RefreshCalls) {
    Verifies(s, h) && c.isRevoked && Holds(s.revoked, h, s.now)
  }

  predicate Rotates(s: State, h: Hash, c: RefreshCalls) {
    Exchanges(s, h) && c.isRevoked && !Holds(s.revoked, h, s.now) && c.find && c.update != Refused
  }

  /** The three effects a refresh can have. */
  lemma RefreshCases(s: State, h: Hash, next: Hash, c: RefreshCalls)
    requires Base(s) && next !in s.issued
    ensures Replays(s, h, c) ==>
              Refresh(s, h, next, c) == (EndSessions(s, s.issued[h].user, c.revokeRows, c.clear), TokenInvalid)
    ensures Rotates(s, h, c) ==>
              var sid := s.issued[h].session;
              var t := Rotated(s, h, sid, next);
              Refresh(s, h, next, c) ==
              if c.update == Done then (AfterRotation(t, h, sid, s.rows[sid].user, s.rows[sid].expiresAt, c),
                  Tokens(next))
              else (t, Failed)
    ensures !Replays(s, h, c) && !Rotates(s, h, c) ==>
              Refresh(s, h, next, c).0 == s && !Refresh(s, h, next, c).1.Tokens?
  {
    hide EndSessions, Rotated, AfterRotation, Base;
    if Verifies(s, h) {
      HolderIsClaimed(s, h);
    }
  }

  lemma RotatedKeepsBase(s: State, h: Hash, next: Hash)
    requires Base(s) && Exchanges(s, h) && next !in s.issued
    ensures Base(Rotated(s, h, s.issued[h].session, next))
  {
    var sid := s.issued[h].session;
    var t := Rotated(s, h, sid, next);
    HolderIsClaimed(s, h);
    assert RowOk(s, sid);
    forall x | x in t.rows ensures RowOk(t, x) {
      assert RowOk(s, x);
    }
    forall g | g in t.issued ensures ClaimOk(t, g) {
      assert g == next || ClaimOk(s, g);
    }
    forall x | x in t.active ensures MarkerOk(t, x) {
      assert MarkerOk(s, x);
    }
    forall x | x in t.inactive ensures DeadOk(t, x) {
      assert DeadOk(s, x);
    }
  }

  lemma MarkRevokedKeepsBase(s: State, revoked: map<Hash, int>)
    requires Base(s)
    ensures Base(s.(revoked := revoked))
  {
    var t := s.(revoked := revoked);
    forall x | x in t.rows ensures RowOk(t, x) {
      assert RowOk(s, x);
    }
    forall g | g in t.issued ensures ClaimOk(t, g) {
      assert ClaimOk(s, g);
    }
    forall x | x in t.active ensures MarkerOk(t, x) {
      assert MarkerOk(s, x);
    }
    forall x | x in t.inactive ensures DeadOk(t, x) {
      assert DeadOk(s, x);
    }
  }

  lemma AfterRotationKeepsBase(t: State, h: Hash, sid: SessionId, user: UserId, oldExpiry: int, c: RefreshCalls)
    requires Base(t) && sid in t.rows && t.rows[sid].expiresAt == t.now + t.refreshTTL
    ensures Base(AfterRotation(t, h, sid, user, oldExpiry, c))
  {
    var u := if c.mark && t.now < oldExpiry then t.(revoked := t.revoked[h := oldExpiry]) else t;
    MarkRevokedKeepsBase(t, u.revoked);
    MarkActiveKeepsBase(u, user, sid, u.refreshTTL);
  }

  lemma RefreshKeepsBase(s: State, h: Hash, next: Hash, c: RefreshCalls)
    requires Base(s) && next !in s.issued
    ensures Base(Refresh(s, h, next, c).0)
  {
    hide Base, Refresh, AfterRotation;
    RefreshCases(s, h, next, c);
    if Replays(s, h, c) {
      EndSessionsRevokes(s, s.issued[h].user, c.revokeRows, c.clear);
      RevokesKeepsBase(s, EndSessions(s, s.issued[h].user, c.revokeRows, c.clear));
    } else if Rotates(s, h, c) {
      var sid := s.issued[h].session;
      RotatedKeepsBase(s, h, next);
      AfterRotationKeepsBase(Rotated(s, h, sid, next), h, sid, s.rows[sid].user, s.rows[sid].expiresAt, c);
    }
  }

  lemma CheckKeepsBase(s: State, sid: SessionId, c: CheckCalls)
    requires Base(s)
    ensures Base(Check(s, sid, c).0)
  {
    if Live(s, sid) {
      MarkActiveKeepsBase(s, s.rows[sid].user, sid, s.rows[sid].expiresAt - s.now);
    } else {
      var t := s.(inactive := s.inactive[sid := s.now + DEAD_MARKER_TTL]);
      forall x | x in t.rows ensures RowOk(t, x) {
        assert RowOk(s, x);
      }
      forall g | g in t.issued ensures ClaimOk(t, g) {
        assert ClaimOk(s, g);
      }
      forall x | x in t.active ensures MarkerOk(t, x) {
        assert MarkerOk(s, x);
      }
      forall x | x in t.inactive ensures DeadOk(t, x) {
        assert x == sid || DeadOk(s, x);
      }
    }
  }

  lemma LossKeepsBase(s: State, e: Event)
    requires Base(s) && (e.LoseActive? || e.LoseInactive? || e.LoseMembers? || e.LoseRevoked? || e.Tick?)
    ensures Base(Apply(s, e))
  {
    var t := Apply(s, e);
    forall x | x in t.rows ensures RowOk(t, x) {
      assert RowOk(s, x);
    }
    forall g | g in t.issued ensures ClaimOk(t, g) {
      assert ClaimOk(s, g);
    }
    forall x | x in t.active ensures MarkerOk(t, x) {
      assert MarkerOk(s, x);
    }
    forall x | x in t.inactive ensures DeadOk(t, x) {
      assert DeadOk(s, x);
    }
  }

  predicate IsRevocation(e: Event) {
    e.LogoutEvent? || e.LogoutAllEvent? || e.ChangeEvent?
  }

  lemma EndSessionsRevokes(s: State, user: UserId, revoke: bool, clear: bool)
    ensures Revokes(s, EndSessions(s, user, revoke, clear))
  {}

  lemma LogoutRevokes(s: State, sid: SessionId, user: UserId, revoke: Outcome, clear: bool)
    ensures Revokes(s, Logout(s, sid, user, revoke, clear))
  {}

  lemma RevocationRevokes(s: State, e: Event)
    requires IsRevocation(e)
    ensures Revokes(s, Apply(s, e))
  {
    hide Logout, EndSessions, Revokes;
    match e
    case LogoutEvent(sid, user, revoke, clear) => LogoutRevokes(s, sid, user, revoke, clear);
    case LogoutAllEvent(user, revoke, clear) => EndSessionsRevokes(s, user, revoke != Refused, revoke == Done && clear);
    case ChangeEvent(user, revoke, clear) => EndSessionsRevokes(s, user, revoke, clear);
    case _ =>
  }

  lemma StepKeepsBase(s: State, e: Event)
    requires Base(s)
    ensures Base(Apply(s, e))
  {
    hide Base, Login, Refresh, Check, Logout, EndSessions, Revokes;
    if IsRevocation(e) {
      RevocationRevokes(s, e);
      RevokesKeepsBase(s, Apply(s, e));
    } else {
      match e
      case LoginEvent(sid, user, h, create, mark) => LoginKeepsBase(s, sid, user, h, create, mark);
      case RefreshEvent(h, next, c) => if next !in s.issued { RefreshKeepsBase(s, h, next, c); }
      case CheckEvent(sid, c) => CheckKeepsBase(s, sid, c);
      case _ => LossKeepsBase(s, e);
    }
  }

  lemma {:induction false} RunKeepsBase(s: State, events: seq<Event>)
    requires Base(s)
    ensures Base(Run(s, events))
    decreases |events|
  {
    if events != [] {
      StepKeepsBase(s, events[0]);
      RunKeepsBase(Apply(s, events[0]), events[1..]);
    }
  }

  // --- When the middleware's answer is the table's answer ---

  /** No live marker stands on a revoked row. */
  predicate Honest(s: State) {
    forall sid :: sid in s.rows && s.rows[sid].revoked ==> !Holds(s.active, sid, s.now)
  }

  /** Whatever the cache reads do, an answer is the table's answer, if and only if no live
      marker stands on a revoked row. */
  lemma AnswersExactly(s: State)
    requires Base(s)
    ensures Honest(s) <==>
            forall sid, c :: Check(s, sid, c).1 != Unknown ==> (Check(s, sid, c).1 == Active <==> Live(s, sid))
  {
    if Honest(s) {
      forall sid, c | Check(s, sid, c).1 != Unknown
        ensures Check(s, sid, c).1 == Active <==> Live(s, sid)
      {
        if sid in s.active {
          assert MarkerOk(s, sid);
        }
        if sid in s.inactive {
          assert DeadOk(s, sid);
        }
      }
    } else {
      var sid :| sid in s.rows && s.rows[sid].revoked && Holds(s.active, sid, s.now);
      var c := CheckCalls(true, true, true, true);
      assert Check(s, sid, c).1 == Active && !Live(s, sid);
    }
  }

  function SessionsOf(s: State, user: UserId): set<SessionId> {
    set sid | sid in s.rows && s.rows[sid].user == user
  }

  /** The sessions whose rows a step revokes. */
  function Hits(s: State, e: Event): set<SessionId> {
    match e
    case RefreshEvent(h, next, c) =>
      if next !in s.issued && Replays(s, h, c) && c.revokeRows then SessionsOf(s, s.issued[h].user) else {}
    case LogoutEvent(sid, _, revoke, _) => if revoke != Refused then {sid} else {}
    case LogoutAllEvent(user, revoke, _) => if revoke != Refused then SessionsOf(s, user) else {}
    case ChangeEvent(user, revoke, _) => if revoke then SessionsOf(s, user) else {}
    case _ => {}
  }

  /** The live markers a step deletes. */
  function Clears(s: State, e: Event): set<SessionId> {
    match e
    case RefreshEvent(h, next, c) =>
      if next !in s.issued && Replays(s, h, c) && c.clear then Listed(s, s.issued[h].user) else {}
    case LogoutEvent(sid, _, revoke, clear) => if revoke == Done && clear then {sid} else {}
    case LogoutAllEvent(user, revoke, clear) => if revoke == Done && clear then Listed(s, user) else {}
    case ChangeEvent(user, _, clear) => if clear then Listed(s, user) else {}
    case LoseActive(sid) => {sid}
    case _ => {}
  }

  /** Every revoked session that still had a live marker lost it in the same call. */
  predicate Clean(s: State, e: Event) {
    forall sid :: sid in Hits(s, e) && sid in s.rows && Holds(s.active, sid, s.now) ==> sid in Clears(s, e)
  }

  /** What a step does to one session that had a row before it: revoked if hit, and its marker
      kept unless cleared, except that a session found live may be marked anew. */
  predicate OnSession(s: State, e: Event, t: State, sid: SessionId)
    requires sid in s.rows
  {
    && sid in t.rows && t.rows[sid].revoked == (s.rows[sid].revoked || sid in Hits(s, e))
    && (t.rows[sid].revoked && !e.Tick? ==>
          Holds(t.active, sid, t.now) == (Holds(s.active, sid, s.now) && sid !in Clears(s, e)))
    && (e.Tick? && Holds(t.active, sid, t.now) ==> Holds(s.active, sid, s.now))
  }

  lemma RefreshOnSession(s: State, h: Hash, next: Hash, c: RefreshCalls, sid: SessionId)
    requires Base(s) && next !in s.issued
    ensures var e, t := RefreshEvent(h, next, c), Refresh(s, h, next, c).0;
      && (sid in s.rows ==> OnSession(s, e, t, sid))
      && (sid in t.rows && sid !in s.rows ==> !t.rows[sid].revoked)
  {
    hide Refresh, EndSessions, Listed, Base;
    RefreshCases(s, h, next, c);
    if Replays(s, h, c) {
      EndSessionsRevokes(s, s.issued[h].user, c.revokeRows, c.clear);
      if sid in s.rows {
        EndSessionsOnSession(s, s.issued[h].user, c.revokeRows, c.clear, sid);
      }
    }
  }

  lemma EndSessionsOnSession(s: State, user: UserId, revoke: bool, clear: bool, sid: SessionId)
    requires sid in s.rows
    ensures var t := EndSessions(s, user, revoke, clear);
      && sid in t.rows && t.rows[sid].revoked == (s.rows[sid].revoked || (revoke && sid in SessionsOf(s, user)))
      && t.now == s.now
      && Holds(t.active, sid, t.now) == (Holds(s.active, sid, s.now) && !(clear && sid in Listed(s, user)))
  {}

  lemma LogoutOnSession(s: State, sid: SessionId, user: UserId, revoke: Outcome, clear: bool, x: SessionId)
    requires x in s.rows
    ensures OnSession(s, LogoutEvent(sid, user, revoke, clear), Logout(s, sid, user, revoke, clear), x)
  {}

  lemma RevocationOnSession(s: State, e: Event, sid: SessionId)
    requires IsRevocation(e)
    ensures sid in s.rows ==> OnSession(s, e, Apply(s, e), sid)
    ensures sid !in s.rows ==> sid !in Apply(s, e).rows
  {
    hide Logout, EndSessions, Listed;
    RevocationRevokes(s, e);
    if sid in s.rows {
      match e
      case LogoutEvent(x, user, revoke, clear) => LogoutOnSession(s, x, user, revoke, clear, sid);
      case LogoutAllEvent(user, revoke, clear) =>
        EndSessionsOnSession(s, user, revoke != Refused, revoke == Done && clear, sid);
      case ChangeEvent(user, revoke, clear) => EndSessionsOnSession(s, user, revoke, clear, sid);
      case _ =>
    }
  }

  lemma OtherOnSession(s: State, e: Event, sid: SessionId)
    requires !IsRevocation(e) && !e.RefreshEvent?
    ensures sid in s.rows ==> OnSession(s, e, Apply(s, e), sid)
    ensures sid !in s.rows && sid in Apply(s, e).rows ==> !Apply(s, e).rows[sid].revoked
  {}

  lemma StepOnSession(s: State, e: Event, sid: SessionId)
    requires Base(s)
    ensures sid in s.rows ==> OnSession(s, e, Apply(s, e), sid)
    ensures sid !in s.rows && sid in Apply(s, e).rows ==> !Apply(s, e).rows[sid].revoked
  {
    hide OnSession, Refresh;
    if IsRevocation(e) {
      RevocationOnSession(s, e, sid);
    } else if e.RefreshEvent? && e.next !in s.issued {
      RefreshOnSession(s, e.hash, e.next, e.refreshCalls, sid);
    } else if e.RefreshEvent? {
      StutterOnSession(s, e, sid);
    } else {
      OtherOnSession(s, e, sid);
    }
  }

  lemma StutterOnSession(s: State, e: Event, sid: SessionId)
    requires e.RefreshEvent? && e.next in s.issued
    ensures sid in s.rows ==> OnSession(s, e, s, sid)
  {}

  /** A step keeps the cache honest if and only if it is clean. */
  lemma HonestStep(s: State, e: Event)
    requires Base(s) && Honest(s)
    ensures Honest(Apply(s, e)) <==> Clean(s, e)
  {
    hide Apply;
    var t := Apply(s, e);
    if Clean(s, e) {
      forall sid | sid in t.rows && t.rows[sid].revoked
        ensures !Holds(t.active, sid, t.now)
      {
        StepOnSession(s, e, sid);
      }
    } else {
      var sid :| sid in Hits(s, e) && sid in s.rows && Holds(s.active, sid, s.now) && sid !in Clears(s, e);
      StepOnSession(s, e, sid);
      assert t.rows[sid].revoked && Holds(t.active, sid, t.now);
    }
  }

  ghost predicate CleanRun(s: State, events: seq<Event>)
    decreases |events|
  {
    events == [] || (Clean(s, events[0]) && CleanRun(Apply(s, events[0]), events[1..]))
  }

  /** In every clean run, IsSessionActive answers what the sessions table would, after any
      pattern of evictions, failed cache reads and failed marker writes. */
  lemma {:induction false} ActiveIffLive(s: State, events: seq<Event>, sid: SessionId, c: CheckCalls)
    requires Base(s) && Honest(s) && CleanRun(s, events)
    ensures var t := Run(s, events);
      Check(t, sid, c).1 != Unknown ==> (Check(t, sid, c).1 == Active <==> Live(t, sid))
    decreases |events|
  {
    if events == [] {
      AnswersExactly(s);
    } else {
      StepKeepsBase(s, events[0]);
      HonestStep(s, events[0]);
      ActiveIffLive(Apply(s, events[0]), events[1..], sid, c);
    }
  }

  // --- When the user's set lists every live marker ---

  predicate Covers(s: State, sid: SessionId)
    requires sid in s.rows && sid in s.active
  {
    var user := s.rows[sid].user;
    user in s.members && sid in s.members[user].ids && s.active[sid] <= s.members[user].until
  }

  /** Each live marker is in its user's set, and the set outlives it. */
  predicate Covered(s: State) {
    forall sid {:trigger Covers(s, sid)} ::
      sid in s.rows && Holds(s.active, sid, s.now) ==> Covers(s, sid)
  }

  /** A re-warm gives the user's whole set the expiry of one session: it shortens nothing when
      no other live marker of the user expires later. */
  predicate LastToExpire(s: State, sid: SessionId)
    requires sid in s.rows
  {
    forall x :: x in s.rows && s.rows[x].user == s.rows[sid].user && Holds(s.active, x, s.now) ==>
      s.active[x] <= s.rows[sid].expiresAt
  }

  /** The check finds no marker, finds the row live, and marks it. */
  predicate Rewarms(s: State, sid: SessionId, c: CheckCalls) {
    && !(c.isActive && Holds(s.active, sid, s.now)) && !(c.isInactive && Holds(s.inactive, sid, s.now))
    && c.find && Live(s, sid) && c.mark
  }

  predicate NoneMarked(s: State, user: UserId) {
    forall x :: x in s.rows && s.rows[x].user == user ==> !Holds(s.active, x, s.now)
  }

  /** A revocation that meets live markers is followed by their deletion, the set of a user with
      live markers is not evicted, and no re-warm shortens it. */
  predicate Gentle(s: State, e: Event) {
    match e
    case LogoutEvent(sid, _, revoke, clear) =>
      revoke == Refused || (revoke == Done && clear) || sid !in s.rows || !Holds(s.active, sid, s.now)
    case LogoutAllEvent(user, revoke, clear) => revoke == Refused || (revoke == Done && clear) || NoneMarked(s, user)
    case ChangeEvent(user, revoke, clear) => !revoke || clear || NoneMarked(s, user)
    case RefreshEvent(h, next, c) =>
      next !in s.issued && Replays(s, h, c) && c.revokeRows ==> c.clear || NoneMarked(s, s.issued[h].user)
    case CheckEvent(sid, c) => Rewarms(s, sid, c) ==> LastToExpire(s, sid)
    case LoseMembers(user) => NoneMarked(s, user)
    case _ => true
  }

  lemma MarkActiveKeepsCovered(s: State, sid: SessionId, ttl: int)
    requires Base(s) && Covered(s) && sid in s.rows
    requires forall x :: x in s.rows && s.rows[x].user == s.rows[sid].user && Holds(s.active, x, s.now) ==>
               s.active[x] <= s.now + ttl
    ensures Covered(MarkActive(s, s.rows[sid].user, sid, ttl))
  {
    var t := MarkActive(s, s.rows[sid].user, sid, ttl);
    forall x | x in t.rows && Holds(t.active, x, t.now) ensures Covers(t, x) {
      assert x == sid || Covers(s, x);
    }
  }

  /** Revocation, when the cache loses at most the markers of the users it also forgets. */
  lemma ClearAllKeepsCovered(s: State, t: State, user: UserId)
    requires Base(s) && Covered(s) && Revokes(s, t) && t.members == s.members
    ensures Covered(ClearAll(t, user))
    ensures Covered(t)
  {
    var u := ClearAll(t, user);
    forall x | x in t.rows && Holds(t.active, x, t.now) ensures Covers(t, x) {
      assert Covers(s, x) && RowRevokes(s, t, x);
    }
    forall x | x in u.rows && Holds(u.active, x, u.now) ensures Covers(u, x) {
      assert Covers(s, x) && RowRevokes(s, t, x);
    }
  }

  lemma EndSessionsKeepsCovered(s: State, user: UserId, revoke: bool, clear: bool)
    requires Base(s) && Covered(s)
    ensures Covered(EndSessions(s, user, revoke, clear))
  {
    EndSessionsRevokes(s, user, revoke, false);
    ClearAllKeepsCovered(s, EndSessions(s, user, revoke, false), user);
  }

  lemma AfterRotationKeepsCovered(t: State, h: Hash, sid: SessionId, oldExpiry: int, c: RefreshCalls)
    requires Base(t) && Covered(t) && sid in t.rows && t.rows[sid].expiresAt == t.now + t.refreshTTL
    ensures Covered(AfterRotation(t, h, sid, t.rows[sid].user, oldExpiry, c))
  {
    var u := if c.mark && t.now < oldExpiry then t.(revoked := t.revoked[h := oldExpiry]) else t;
    MarkRevokedKeepsBase(t, u.revoked);
    forall x | x in u.rows && Holds(u.active, x, u.now) ensures Covers(u, x) && u.active[x] <= u.now + u.refreshTTL {
      assert Covers(t, x) && MarkerOk(t, x) && RowOk(t, x);
    }
    MarkActiveKeepsCovered(u, sid, u.refreshTTL);
  }

  lemma RefreshKeepsCovered(s: State, h: Hash, next: Hash, c: RefreshCalls)
    requires Base(s) && Covered(s) && next !in s.issued
    ensures Covered(Refresh(s, h, next, c).0)
  {
    hide Base, Refresh, AfterRotation, EndSessions;
    RefreshCases(s, h, next, c);
    if Replays(s, h, c) {
      EndSessionsKeepsCovered(s, s.issued[h].user, c.revokeRows, c.clear);
    } else if Rotates(s, h, c) {
      var sid := s.issued[h].session;
      var t := Rotated(s, h, sid, next);
      RotatedKeepsBase(s, h, next);
      forall x | x in t.rows && Holds(t.active, x, t.now) ensures Covers(t, x) {
        assert Covers(s, x);
      }
      AfterRotationKeepsCovered(t, h, sid, s.rows[sid].expiresAt, c);
    }
  }

  lemma LoginKeepsCovered(s: State, sid: SessionId, user: UserId, h: Hash, create: Outcome, mark: bool)
    requires Base(s) && Covered(s)
    ensures Covered(Login(s, sid, user, h, create, mark))
  {
    if sid in s.rows || sid in s.inactive || h in s.issued || create == Refused {
      return;
    }
    LoginKeepsBase(s, sid, user, h, create, false);
    var t := Login(s, sid, user, h, create, false);
    forall x | x in t.rows && Holds(t.active, x, t.now) ensures Covers(t, x) {
      assert MarkerOk(s, x);
      assert Covers(s, x);
    }
    forall x | x in t.rows && t.rows[x].user == user && Holds(t.active, x, t.now)
      ensures t.active[x] <= t.now + t.refreshTTL
    {
      assert MarkerOk(t, x) && RowOk(t, x);
    }
    MarkActiveKeepsCovered(t, sid, t.refreshTTL);
  }

  lemma LogoutKeepsCovered(s: State, sid: SessionId, user: UserId, revoke: Outcome, clear: bool)
    requires Base(s) && Covered(s)
    ensures Covered(Logout(s, sid, user, revoke, clear))
  {
    var t := Logout(s, sid, user, revoke, clear);
    forall x | x in t.rows && Holds(t.active, x, t.now) ensures Covers(t, x) {
      assert Covers(s, x);
    }
  }

  lemma OtherKeepsCovered(s: State, e: Event)
    requires Base(s) && Covered(s) && Gentle(s, e)
    requires e.CheckEvent? || e.LoseActive? || e.LoseInactive? || e.LoseMembers? || e.LoseRevoked? || e.Tick?
    ensures Covered(Apply(s, e))
  {
    if e.CheckEvent? && Rewarms(s, e.session, e.checkCalls) {
      var sid := e.session;
      MarkActiveKeepsCovered(s, sid, s.rows[sid].expiresAt - s.now);
    } else {
      var t := Apply(s, e);
      forall x | x in t.rows && Holds(t.active, x, t.now) ensures Covers(t, x) {
        assert Covers(s, x);
      }
    }
  }

  lemma CoveredStep(s: State, e: Event)
    requires Base(s) && Covered(s) && Gentle(s, e)
    ensures Covered(Apply(s, e))
  {
    hide Covered, Base, Login, Refresh, Check, EndSessions, Logout;
    match e
    case LoginEvent(sid, user, h, create, mark) => LoginKeepsCovered(s, sid, user, h, create, mark);
    case RefreshEvent(h, next, c) => if next !in s.issued { RefreshKeepsCovered(s, h, next, c); }
    case LogoutEvent(sid, user, revoke, clear) => LogoutKeepsCovered(s, sid, user, revoke, clear);
    case LogoutAllEvent(user, revoke, clear) =>
      EndSessionsKeepsCovered(s, user, revoke != Refused, revoke == Done && clear);
    case ChangeEvent(user, revoke, clear) => EndSessionsKeepsCovered(s, user, revoke, clear);
    case _ => OtherKeepsCovered(s, e);
  }

  lemma CleanStep(s: State, e: Event)
    requires Base(s) && Covered(s) && Gentle(s, e)
    ensures Clean(s, e)
  {
    forall sid | sid in Hits(s, e) && sid in s.rows && Holds(s.active, sid, s.now)
      ensures sid in Clears(s, e)
    {
      assert Covers(s, sid);
    }
  }

  lemma RoughStep(s: State, e: Event)
    requires Base(s) && Covered(s) && !Gentle(s, e)
    ensures !Clean(s, e) || !Covered(Apply(s, e))
  {
    match e
    case LogoutEvent(sid, _, _, _) => assert sid in Hits(s, e) && sid !in Clears(s, e);
    case LoseMembers(user) =>
      var x :| x in s.rows && s.rows[x].user == user && Holds(s.active, x, s.now);
      assert !Covers(Apply(s, e), x);
    case CheckEvent(sid, _) =>
      var x :| x in s.rows && s.rows[x].user == s.rows[sid].user && Holds(s.active, x, s.now)
          && s.active[x] > s.rows[sid].expiresAt;
      assert MarkerOk(s, x);
      assert !Covers(Apply(s, e), x);
    case _ => RoughRevocation(s, e);
  }

  lemma RoughRevocation(s: State, e: Event)
    requires !Gentle(s, e) && (e.LogoutAllEvent? || e.ChangeEvent? || e.RefreshEvent?)
    ensures !Clean(s, e)
  {
    hide Listed;
    var user := if e.RefreshEvent? then s.issued[e.hash].user else e.user;
    var x :| x in s.rows && s.rows[x].user == user && Holds(s.active, x, s.now);
    assert x in Hits(s, e) && x !in Clears(s, e);
  }

  /** With every live marker listed, a step is clean and keeps them listed if and only if it is
      gentle. */
  lemma GentleStep(s: State, e: Event)
    requires Base(s) && Covered(s)
    ensures Gentle(s, e) <==> Clean(s, e) && Covered(Apply(s, e))
  {
    hide Covered, Base, Gentle, Clean, Apply;
    if Gentle(s, e) {
      CleanStep(s, e);
      CoveredStep(s, e);
    } else {
      RoughStep(s, e);
    }
  }

  ghost predicate GentleRun(s: State, events: seq<Event>)
    decreases |events|
  {
    events == [] || (Gentle(s, events[0]) && GentleRun(Apply(s, events[0]), events[1..]))
  }

  /** Runs in which marker revocations reach the cache and no set is lost or shortened are
      clean, so IsSessionActive agrees with the table throughout. */
  lemma {:induction false} GentleRunIsClean(s: State, events: seq<Event>)
    requires Base(s) && Covered(s) && GentleRun(s, events)
    ensures CleanRun(s, events)
    decreases |events|
  {
    if events != [] {
      GentleStep(s, events[0]);
      StepKeepsBase(s, events[0]);
      GentleRunIsClean(Apply(s, events[0]), events[1..]);
    }
  }
}
