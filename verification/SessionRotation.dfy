/** Refresh-token rotation with reuse detection (section 4.14.2 of RFC 9700): what a token that
    has been exchanged can do, and which steps keep the detection working. */
module SessionRotation {
  import opened Basics
  import opened SessionMachine
  import opened SessionSafety

  // --- A spent token buys nothing, whatever failed ---

  /** The token's session has moved on to another token, or is revoked. */
  predicate Spent(s: State, h: Hash) {
    && h in s.issued && s.issued[h].session in s.rows
    && (s.rows[s.issued[h].session].hash != h || s.rows[s.issued[h].session].revoked)
  }

  lemma RefreshKeepsSpent(s: State, h: Hash, next: Hash, c: RefreshCalls, g: Hash)
    requires Base(s) && next !in s.issued && Spent(s, g)
    ensures Spent(Refresh(s, h, next, c).0, g)
  {
    hide Refresh, EndSessions;
    RefreshCases(s, h, next, c);
    if Replays(s, h, c) {
      EndSessionsRevokes(s, s.issued[h].user, c.revokeRows, c.clear);
      assert RowRevokes(s, Refresh(s, h, next, c).0, s.issued[g].session);
    }
  }

  lemma StepKeepsSpent(s: State, e: Event, g: Hash)
    requires Base(s) && Spent(s, g)
    ensures Spent(Apply(s, e), g)
  {
    hide Base, Refresh, EndSessions, Logout;
    if IsRevocation(e) {
      RevocationRevokes(s, e);
      assert RowRevokes(s, Apply(s, e), s.issued[g].session);
    } else if e.RefreshEvent? && e.next !in s.issued {
      RefreshKeepsSpent(s, e.hash, e.next, e.refreshCalls, g);
    }
  }

  lemma {:induction false} RunKeepsSpent(s: State, events: seq<Event>, g: Hash)
    requires Base(s) && Spent(s, g)
    ensures Base(Run(s, events)) && Spent(Run(s, events), g)
    decreases |events|
  {
    if events != [] {
      StepKeepsBase(s, events[0]);
      StepKeepsSpent(s, events[0], g);
      RunKeepsSpent(Apply(s, events[0]), events[1..], g);
    }
  }

  /** A refresh token is exchanged at most once over any run, even if it is never remembered
      as revoked: after one exchange no later presentation of it yields tokens. */
  lemma AtMostOneExchange(s: State, h: Hash, next: Hash, c: RefreshCalls, events: seq<Event>,
                          next2: Hash, c2: RefreshCalls)
    requires Base(s) && next !in s.issued && Refresh(s, h, next, c).1.Tokens?
    requires next2 !in Run(Refresh(s, h, next, c).0, events).issued
    ensures !Refresh(Run(Refresh(s, h, next, c).0, events), h, next2, c2).1.Tokens?
  {
    hide Refresh, EndSessions;
    RefreshCases(s, h, next, c);
    var t := Refresh(s, h, next, c).0;
    RefreshKeepsBase(s, h, next, c);
    assert Spent(t, h);
    RunKeepsSpent(t, events, h);
    RefreshCases(Run(t, events), h, next2, c2);
  }

  /** Tokens are given exactly for the current token of a live session, when every call the
      exchange depends on answers. */
  lemma ExchangedExactly(s: State, h: Hash, next: Hash, c: RefreshCalls)
    requires Base(s) && next !in s.issued
    ensures Refresh(s, h, next, c).1.Tokens? <==>
            Exchanges(s, h) && !Holds(s.revoked, h, s.now) && c.isRevoked && c.find && c.update == Done
    ensures Exchanges(s, h) ==> Live(s, s.issued[h].session)
  {
    hide EndSessions;
    RefreshCases(s, h, next, c);
    if Exchanges(s, h) {
      HolderIsClaimed(s, h);
    }
  }

  // --- Reuse detection ---

  predicate RotatedOut(s: State, h: Hash) {
    h in s.issued && s.issued[h].session in s.rows && s.rows[s.issued[h].session].hash != h
  }

  /** Remembered as revoked for the rest of its own life. */
  predicate Marked(s: State, h: Hash) {
    h in s.issued && h in s.revoked && s.issued[h].expiresAt <= s.revoked[h]
  }

  /** Every rotated-out token still inside its own lifetime is remembered. */
  ghost predicate Detects(s: State) {
    forall h {:trigger Marked(s, h)} {:trigger RotatedOut(s, h)} ::
      RotatedOut(s, h) && s.now < s.issued[h].expiresAt ==> Marked(s, h)
  }

  /** A rotation that reaches the table is remembered, and no needed mark is evicted. */
  predicate Remembers(s: State, e: Event) {
    match e
    case RefreshEvent(h, next, c) =>
      next !in s.issued && Rotates(s, h, c) ==> c.update == Done && c.mark
    case LoseRevoked(h) => RotatedOut(s, h) ==> !(Verifies(s, h) && Marked(s, h))
    case _ => true
  }

  lemma RotationDetects(s: State, h: Hash, next: Hash, c: RefreshCalls)
    requires Base(s) && Detects(s) && next !in s.issued && Rotates(s, h, c)
    ensures Detects(Refresh(s, h, next, c).0) <==> c.update == Done && c.mark
  {
    hide Refresh, EndSessions;
    RefreshCases(s, h, next, c);
    HolderIsClaimed(s, h);
    var t := Refresh(s, h, next, c).0;
    assert RotatedOut(t, h);
    if c.update == Done && c.mark {
      forall g | RotatedOut(t, g) && t.now < t.issued[g].expiresAt ensures Marked(t, g) {
        assert g == h || RotatedOut(s, g);
        assert g == h || Marked(s, g);
      }
    } else {
      assert !Marked(t, h);
    }
  }

  lemma RevocationDetects(s: State, t: State)
    requires Base(s) && Detects(s) && Revokes(s, t)
    ensures Detects(t)
  {
    forall g | RotatedOut(t, g) && t.now < t.issued[g].expiresAt ensures Marked(t, g) {
      assert RowRevokes(s, t, s.issued[g].session);
      assert RotatedOut(s, g);
      assert Marked(s, g);
    }
  }

  /** Steps that leave the tokens, their rows' hashes and the marks alone. */
  ghost predicate SameTokens(s: State, t: State) {
    && s.now <= t.now && t.revoked == s.revoked
    && (forall g {:trigger RotatedOut(t, g)} :: RotatedOut(t, g) ==>
          RotatedOut(s, g) && t.issued[g] == s.issued[g])
  }

  lemma SameTokensDetects(s: State, t: State)
    requires Detects(s) && SameTokens(s, t)
    ensures Detects(t)
  {
    forall g | RotatedOut(t, g) && t.now < t.issued[g].expiresAt ensures Marked(t, g) {
      assert RotatedOut(s, g);
      assert Marked(s, g);
    }
  }

  predicate IsQuiet(e: Event) {
    e.CheckEvent? || e.LoseActive? || e.LoseInactive? || e.LoseMembers? || e.Tick?
  }

  lemma LoginIsQuiet(s: State, sid: SessionId, user: UserId, h: Hash, create: Outcome, mark: bool)
    requires Base(s)
    ensures SameTokens(s, Login(s, sid, user, h, create, mark))
  {
    var t := Login(s, sid, user, h, create, mark);
    forall g | RotatedOut(t, g) ensures RotatedOut(s, g) && t.issued[g] == s.issued[g] {
      if g in s.issued {
        assert ClaimOk(s, g);
      }
    }
  }

  lemma CheckIsQuiet(s: State, sid: SessionId, c: CheckCalls)
    ensures SameTokens(s, Check(s, sid, c).0)
  {}

  lemma QuietSteps(s: State, e: Event)
    requires IsQuiet(e)
    ensures SameTokens(s, Apply(s, e))
  {
    hide Refresh, EndSessions, Logout, Login, Check;
    if e.CheckEvent? {
      CheckIsQuiet(s, e.session, e.checkCalls);
    }
  }

  lemma LossDetects(s: State, h: Hash)
    requires Base(s) && Detects(s)
    ensures Detects(Apply(s, LoseRevoked(h))) <==> Remembers(s, LoseRevoked(h))
  {
    var t := Apply(s, LoseRevoked(h));
    assert RotatedOut(t, h) == RotatedOut(s, h) && !Marked(t, h);
    if Remembers(s, LoseRevoked(h)) {
      forall g | RotatedOut(t, g) && t.now < t.issued[g].expiresAt ensures Marked(t, g) {
        assert RotatedOut(s, g);
        assert Marked(s, g);
      }
    } else {
      assert RotatedOut(t, h) && t.now < t.issued[h].expiresAt;
    }
  }

  /** A step keeps every rotated-out token remembered if and only if it remembers. */
  lemma DetectsStep(s: State, e: Event)
    requires Base(s) && Detects(s)
    ensures Detects(Apply(s, e)) <==> Remembers(s, e)
  {
    hide Base, Detects, Refresh, EndSessions, Logout, Login, Check;
    if IsRevocation(e) {
      RevocationRevokes(s, e);
      RevocationDetects(s, Apply(s, e));
    } else if e.LoseRevoked? {
      LossDetects(s, e.hash);
    } else if e.RefreshEvent? {
      if e.next !in s.issued {
        var h, c := e.hash, e.refreshCalls;
        RefreshCases(s, h, e.next, c);
        if Replays(s, h, c) {
          EndSessionsRevokes(s, s.issued[h].user, c.revokeRows, c.clear);
          RevocationDetects(s, Apply(s, e));
        } else if Rotates(s, h, c) {
          RotationDetects(s, h, e.next, c);
        }
      }
    } else {
      if e.LoginEvent? {
        LoginIsQuiet(s, e.session, e.user, e.hash, e.create, e.mark);
      } else {
        QuietSteps(s, e);
      }
      SameTokensDetects(s, Apply(s, e));
    }
  }

  ghost predicate RememberingRun(s: State, events: seq<Event>)
    decreases |events|
  {
    events == [] || (Remembers(s, events[0]) && RememberingRun(Apply(s, events[0]), events[1..]))
  }

  /** In every run that remembers its rotations, a rotated-out token still inside its own
      lifetime is in the revoked set, so the rotation is detectable for as long as the token
      would verify. */
  lemma {:induction false} RotatedOutIsRevoked(s: State, events: seq<Event>, h: Hash)
    requires Base(s) && Detects(s) && RememberingRun(s, events)
    ensures var t := Run(s, events);
      Base(t) && (RotatedOut(t, h) && Verifies(t, h) ==> Holds(t.revoked, h, t.now))
    decreases |events|
  {
    if events == [] {
      if RotatedOut(s, h) && Verifies(s, h) {
        assert Marked(s, h);
      }
    } else {
      DetectsStep(s, events[0]);
      StepKeepsBase(s, events[0]);
      RotatedOutIsRevoked(Apply(s, events[0]), events[1..], h);
    }
  }

  // --- The end of a session ---

  /** The row is revoked and no live marker stands on it. */
  predicate Finished(s: State, sid: SessionId) {
    sid in s.rows && s.rows[sid].revoked && !Holds(s.active, sid, s.now)
  }

  lemma {:induction false} RunKeepsFinished(s: State, events: seq<Event>, sid: SessionId)
    requires Base(s) && Finished(s, sid)
    ensures Base(Run(s, events)) && Finished(Run(s, events), sid)
    decreases |events|
  {
    if events != [] {
      hide Base, Apply;
      StepOnSession(s, events[0], sid);
      StepKeepsBase(s, events[0]);
      RunKeepsFinished(Apply(s, events[0]), events[1..], sid);
    }
  }

  /** What is finished stays so: in every continuation, whatever fails and whatever is evicted, no
      check answers active and no token of the session is exchanged. */
  lemma FinishedForGood(s: State, events: seq<Event>, sid: SessionId, check: CheckCalls, g: Hash, next: Hash,
      c: RefreshCalls)
    requires Base(s) && Finished(s, sid)
    requires var t := Run(s, events); next !in t.issued && g in t.issued && t.issued[g].session == sid
    ensures var t := Run(s, events); Check(t, sid, check).1 != Active && !Refresh(t, g, next, c).1.Tokens?
  {
    hide Base, Refresh;
    RunKeepsFinished(s, events, sid);
    RefreshCases(Run(s, events), g, next, c);
  }

  /** And exactly then: a revoked session is never again answered active, in any continuation, if and
      only if no live marker stands on it. */
  lemma FinishedExactly(s: State, sid: SessionId)
    requires Base(s) && sid in s.rows && s.rows[sid].revoked
    ensures Finished(s, sid) <==> forall events, c :: Check(Run(s, events), sid, c).1 != Active
  {
    hide Base;
    if Finished(s, sid) {
      forall events, c ensures Check(Run(s, events), sid, c).1 != Active {
        RunKeepsFinished(s, events, sid);
      }
    } else {
      assert Check(Run(s, []), sid, CheckCalls(true, true, true, true)).1 == Active;
    }
  }

  /** Presenting a rotated-out token yields no tokens, and finishes exactly those sessions of its user
      whose live marker, if there is one, the user's set lists for the revocation to delete. */
  lemma ReplayFinishes(s: State, h: Hash, next: Hash, c: RefreshCalls, sid: SessionId)
    requires Base(s) && next !in s.issued
    requires Verifies(s, h) && Holds(s.revoked, h, s.now) && c.isRevoked && c.revokeRows
    requires sid in s.rows && s.rows[sid].user == s.issued[h].user
    ensures var t := Refresh(s, h, next, c).0;
      && Base(t) && Refresh(s, h, next, c).1 == TokenInvalid
      && (Finished(t, sid) <==> (Holds(s.active, sid, s.now) ==> c.clear && sid in Listed(s, s.issued[h].user)))
  {
    hide Base, Refresh, EndSessions, Listed;
    RefreshCases(s, h, next, c);
    StepKeepsBase(s, RefreshEvent(h, next, c));
    EndSessionsOnSession(s, s.issued[h].user, c.revokeRows, c.clear, sid);
  }

  /** So no session its user had then, whose marker was listed, is ever again answered active or
      refreshed, in any continuation. */
  lemma ReplayEndsTheFamily(s: State, h: Hash, next: Hash, c: RefreshCalls, sid: SessionId,
                            events: seq<Event>, check: CheckCalls, g: Hash, next2: Hash, c2: RefreshCalls)
    requires Base(s) && next !in s.issued
    requires Verifies(s, h) && Holds(s.revoked, h, s.now) && c.isRevoked && c.revokeRows
    requires sid in s.rows && s.rows[sid].user == s.issued[h].user
    requires Holds(s.active, sid, s.now) ==> c.clear && sid in Listed(s, s.issued[h].user)
    requires var t := Run(Refresh(s, h, next, c).0, events);
      next2 !in t.issued && g in t.issued && t.issued[g].session == sid
    ensures var t := Run(Refresh(s, h, next, c).0, events);
      && Refresh(s, h, next, c).1 == TokenInvalid
      && Check(t, sid, check).1 != Active
      && !Refresh(t, g, next2, c2).1.Tokens?
  {
    hide Refresh, Check, Base, Listed;
    ReplayFinishes(s, h, next, c, sid);
    FinishedForGood(Refresh(s, h, next, c).0, events, sid, check, g, next2, c2);
  }

  /** A logout finishes its session exactly when its statement takes effect, and the session's live
      marker, if there is one, is deleted. */
  lemma LogoutFinishes(s: State, sid: SessionId, user: UserId, revoke: Outcome, clear: bool)
    requires Base(s) && sid in s.rows && !s.rows[sid].revoked
    ensures var t := Logout(s, sid, user, revoke, clear);
      && Base(t)
      && (Finished(t, sid) <==> revoke != Refused && (Holds(s.active, sid, s.now) ==> revoke == Done && clear))
  {
    hide Base;
    StepKeepsBase(s, LogoutEvent(sid, user, revoke, clear));
  }

  /** A logout everywhere finishes a session of its user exactly when its statement takes effect, and
      the session's live marker, if there is one, is listed and deleted. */
  lemma LogoutAllFinishes(s: State, user: UserId, revoke: Outcome, clear: bool, sid: SessionId)
    requires Base(s) && sid in s.rows && s.rows[sid].user == user && !s.rows[sid].revoked
    ensures var t := LogoutAll(s, user, revoke, clear);
      && Base(t)
      && (Finished(t, sid) <==>
          revoke != Refused && (Holds(s.active, sid, s.now) ==> revoke == Done && clear && sid in Listed(s, user)))
  {
    hide Base, EndSessions, Listed;
    StepKeepsBase(s, LogoutAllEvent(user, revoke, clear));
    EndSessionsOnSession(s, user, revoke != Refused, revoke == Done && clear, sid);
  }

  // --- A run in which every call succeeds and the middleware is still wrong ---

  const DAY := 86400000

  /** Two logins of one user a few days apart; the first session's marker is evicted and warmed
      again with the day it has left, which shortens the set that lists both. The set lapses,
      and logging out everywhere then finds no marker to delete. */
  function ShortenedSet(): seq<Event> {
    [LoginEvent("first", "user", "h1", Done, true),
     Tick(6 * DAY),
     LoginEvent("second", "user", "h2", Done, true),
     LoseActive("first"),
     CheckEvent("first", CheckCalls(true, true, true, true)),
     Tick(7 * DAY),
     LogoutAllEvent("user", Done, true)]
  }

  function AfterSecondLogin(): State {
    Initial(7 * DAY, 0).(
      now := 6 * DAY,
      rows := map["first" := Row("user", "h1", 7 * DAY, false), "second" := Row("user", "h2", 13 * DAY, false)],
      issued := map["h1" := Claims("user", "first", 7 * DAY), "h2" := Claims("user", "second", 13 * DAY)],
      active := map["first" := 7 * DAY, "second" := 13 * DAY],
      members := map["user" := Members({"first", "second"}, 13 * DAY)])
  }

  function Shortened(): State {
    AfterSecondLogin().(
      now := 7 * DAY,
      rows := map["first" := Row("user", "h1", 7 * DAY, true), "second" := Row("user", "h2", 13 * DAY, true)],
      members := map[])
  }

  lemma {:induction false} RunExtends(s: State, events: seq<Event>, k: nat)
    requires k < |events|
    ensures Run(s, events[..k + 1]) == Apply(Run(s, events[..k]), events[k])
    decreases k
  {
    hide Apply;
    if k == 0 {
      assert events[..1][1..] == [] && events[..0] == [];
    } else {
      assert events[..k + 1][1..] == events[1..][..k] && events[..k][1..] == events[1..][..k - 1];
      RunExtends(Apply(s, events[0]), events[1..], k - 1);
    }
  }

  lemma TwoLogins()
    ensures var es := ShortenedSet();
      Apply(Apply(Apply(Initial(7 * DAY, 0), es[0]), es[1]), es[2]) == AfterSecondLogin()
  {
    var s := Login(Initial(7 * DAY, 0), "first", "user", "h1", Done, true);
    assert s.members["user"] == Members({"first"}, 7 * DAY);
    var t := Login(s.(now := 6 * DAY), "second", "user", "h2", Done, true);
    assert t.members["user"] == Members({"first", "second"}, 13 * DAY);
    assert t == AfterSecondLogin();
  }

  function WarmedAgain(): State {
    AfterSecondLogin().(members := map["user" := Members({"first", "second"}, 7 * DAY)])
  }

  lemma Warming()
    ensures var es := ShortenedSet(); Apply(Apply(AfterSecondLogin(), es[3]), es[4]) == WarmedAgain()
  {
    var s := AfterSecondLogin();
    var t := s.(active := s.active - {"first"});
    var u := Check(t, "first", CheckCalls(true, true, true, true)).0;
    assert u.active == s.active;
    assert u.members["user"] == Members({"first", "second"}, 7 * DAY);
  }

  lemma LoggingOut()
    ensures var es := ShortenedSet(); Apply(Apply(WarmedAgain(), es[5]), es[6]) == Shortened()
  {
    var t := WarmedAgain().(now := 7 * DAY);
    assert Listed(t, "user") == {};
    assert RevokeRows(t, "user").rows == Shortened().rows;
  }

  lemma ShortenedSetLeavesAMarker()
    ensures Run(Initial(7 * DAY, 0), ShortenedSet()) == Shortened()
    ensures Check(Shortened(), "second", CheckCalls(true, true, true, true)).1 == Active
    ensures !Live(Shortened(), "second")
  {
    var s, es := Initial(7 * DAY, 0), ShortenedSet();
    assert Run(s, es) == Shortened() by {
      assert |es| == 7;
      hide Apply, Initial, ShortenedSet, AfterSecondLogin, WarmedAgain, Shortened;
      assert es[..0] == [] && es[..7] == es;
      RunExtends(s, es, 0);
      RunExtends(s, es, 1);
      RunExtends(s, es, 2);
      TwoLogins();
      RunExtends(s, es, 3);
      RunExtends(s, es, 4);
      Warming();
      RunExtends(s, es, 5);
      RunExtends(s, es, 6);
      LoggingOut();
    }
  }
}
