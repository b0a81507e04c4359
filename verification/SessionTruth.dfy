/** Both markers against the row, expiry included, while refreshes and checks overlap: exactly which
    steps leave a marker that says something else than the table. */
module SessionTruth {
  import opened Basics
  import opened SessionMachine
  import opened SessionSafety
  import opened SessionRotation
  import opened SessionOverlap

  type Event = SessionOverlap.Event

  /** A live marker stands on an unrevoked row and no longer than it. */
  predicate LiveTrue(s: State, sid: SessionId) {
    Holds(s.active, sid, s.now) ==> sid in s.rows && !s.rows[sid].revoked && s.active[sid] <= s.rows[sid].expiresAt
  }

  /** A dead marker stands on no live session. */
  predicate DeadTrue(s: State, sid: SessionId) {
    Holds(s.inactive, sid, s.now) ==> !Live(s, sid)
  }

  ghost predicate Truthful(s: State) {
    && (forall sid {:trigger LiveTrue(s, sid)} :: LiveTrue(s, sid))
    && (forall sid {:trigger DeadTrue(s, sid)} :: DeadTrue(s, sid))
  }

  /** No row outlives the lifetime it is given. */
  predicate Limited(s: State) {
    s.refreshTTL > 0 && forall sid {:trigger s.rows[sid]} :: sid in s.rows ==>
        s.rows[sid].expiresAt <= s.now + s.refreshTTL
  }

  /** Revocations delete the live markers they meet; a refresh renews no row that is marked dead, and
      marks it for no longer than it was renewed for; a check marks no row that was revoked since it
      was found, and buries none that was renewed. */
  predicate Accurate(w: World, e: Event) {
    match e
    case Meanwhile(x) => x.RefreshEvent? || x.CheckEvent? || Clean(w.s, x)
    case Refreshing(_, h, c) => IsReplay(w, e) ==> Clean(w.s, ChangeEvent(w.s.issued[h].user, c.revokeRows, c.clear))
    case Checking(_, _, _) => true
    case Update(id, next, o) =>
      id in w.calls && Reaches(w, w.calls[id], next, o) ==> !Holds(w.s.inactive, w.calls[id].session, w.s.now)
    case Then(id, o) =>
      if id !in w.calls || o == Refused then true
      else
        (match w.calls[id]
         case Remembered(_, sid, _, _) =>
           sid in w.s.rows && !w.s.rows[sid].revoked && w.s.now + w.s.refreshTTL <= w.s.rows[sid].expiresAt
         case Warming(sid, _, oldExpiry) =>
           w.s.now < oldExpiry ==> sid in w.s.rows && !w.s.rows[sid].revoked && oldExpiry <= w.s.rows[sid].expiresAt
         case Burying(sid) => !Live(w.s, sid)
         case _ => true)
  }

  // --- One step ---

  /** Rows are only revoked, and live markers only lost. */
  lemma RevokesTrue(s: State, t: State)
    requires Truthful(s) && Limited(s) && Revokes(s, t)
    ensures Limited(t)
    ensures Truthful(t) <==> forall sid :: sid in t.rows && t.rows[sid].revoked ==> !Holds(t.active, sid, t.now)
  {
    forall sid | sid in t.rows ensures t.rows[sid].expiresAt <= t.now + t.refreshTTL {
      assert RowRevokes(s, t, sid);
    }
    forall sid ensures DeadTrue(t, sid) {
      assert DeadTrue(s, sid);
      assert sid in s.rows ==> RowRevokes(s, t, sid);
    }
    if forall sid :: sid in t.rows && t.rows[sid].revoked ==> !Holds(t.active, sid, t.now) {
      forall sid ensures LiveTrue(t, sid) {
        assert LiveTrue(s, sid);
        assert sid in s.rows ==> RowRevokes(s, t, sid);
      }
    } else {
      var sid :| sid in t.rows && t.rows[sid].revoked && Holds(t.active, sid, t.now);
      assert !LiveTrue(t, sid);
    }
  }

  lemma TruthfulIsHonest(s: State)
    requires Truthful(s)
    ensures Honest(s)
  {
    forall sid | sid in s.rows && s.rows[sid].revoked ensures !Holds(s.active, sid, s.now) {
      assert LiveTrue(s, sid);
    }
  }

  lemma RevocationTruth(s: State, e: SessionMachine.Event)
    requires Truthful(s) && Limited(s) && IsRevocation(e)
    ensures Limited(Apply(s, e)) && (Truthful(Apply(s, e)) <==> Clean(s, e))
  {
    hide Truthful, Limited, Clean, Apply, Revokes;
    TruthfulIsHonest(s);
    RevocationRevokes(s, e);
    RevokesTrue(s, Apply(s, e));
    OtherHonest(s, e);
  }

  lemma LoginTruth(s: State, e: SessionMachine.Event)
    requires Truthful(s) && Limited(s) && e.LoginEvent?
    ensures Limited(Apply(s, e)) && Truthful(Apply(s, e))
  {
    var t := Apply(s, e);
    forall sid ensures LiveTrue(t, sid) && DeadTrue(t, sid) {
      assert LiveTrue(s, sid) && DeadTrue(s, sid);
    }
  }

  lemma LossTruth(s: State, e: SessionMachine.Event)
    requires Truthful(s) && Limited(s)
             && (e.LoseActive? || e.LoseInactive? || e.LoseMembers? || e.LoseRevoked? || e.Tick?)
    ensures Limited(Apply(s, e)) && Truthful(Apply(s, e))
  {
    var t := Apply(s, e);
    forall sid ensures LiveTrue(t, sid) && DeadTrue(t, sid) {
      assert LiveTrue(s, sid) && DeadTrue(s, sid);
    }
  }

  lemma OtherTruth(s: State, e: SessionMachine.Event)
    requires Truthful(s) && Limited(s) && !e.RefreshEvent? && !e.CheckEvent?
    ensures Limited(Apply(s, e)) && (Truthful(Apply(s, e)) <==> Clean(s, e))
  {
    hide Truthful, Limited, Apply;
    if IsRevocation(e) {
      RevocationTruth(s, e);
    } else if e.LoginEvent? {
      LoginTruth(s, e);
    } else {
      LossTruth(s, e);
    }
  }

  lemma SeekTruth(w: World, e: Event)
    requires Truthful(w.s) && Limited(w.s) && e.Refreshing? && e.id !in w.calls
    ensures Limited(Step(w, e).s) && (Truthful(Step(w, e).s) <==> Accurate(w, e))
  {
    hide Truthful, Limited, Clean, EndSessions;
    if IsReplay(w, e) {
      OtherTruth(w.s, ChangeEvent(w.s.issued[e.hash].user, e.refreshCalls.revokeRows, e.refreshCalls.clear));
    }
  }

  lemma UpdateTruth(w: World, e: Event)
    requires Truthful(w.s) && Limited(w.s) && e.Update?
    ensures Limited(Step(w, e).s) && (Truthful(Step(w, e).s) <==> Accurate(w, e))
  {
    var t := Step(w, e).s;
    if e.id in w.calls && Reaches(w, w.calls[e.id], e.next, e.outcome) {
      var x := w.calls[e.id].session;
      forall sid ensures LiveTrue(t, sid) && (DeadTrue(t, sid) <==> (sid == x ==> !Holds(w.s.inactive, x, w.s.now))) {
        assert LiveTrue(w.s, sid) && DeadTrue(w.s, sid);
      }
      assert DeadTrue(t, x) <==> !Holds(w.s.inactive, x, w.s.now);
    }
  }

  lemma MarkTruth(s: State, user: UserId, sid: SessionId, ttl: int)
    requires Truthful(s) && Limited(s) && ttl > 0
    ensures var t := MarkActive(s, user, sid, ttl);
      && Limited(t)
      && (Truthful(t) <==> sid in s.rows && !s.rows[sid].revoked && s.now + ttl <= s.rows[sid].expiresAt)
  {
    var t := MarkActive(s, user, sid, ttl);
    assert LiveTrue(t, sid) <==> sid in s.rows && !s.rows[sid].revoked && s.now + ttl <= s.rows[sid].expiresAt;
    forall x ensures (x != sid ==> LiveTrue(t, x)) && DeadTrue(t, x) {
      assert LiveTrue(s, x) && DeadTrue(s, x);
    }
  }

  lemma BuryTruth(s: State, sid: SessionId)
    requires Truthful(s) && Limited(s)
    ensures var t := s.(inactive := s.inactive[sid := s.now + DEAD_MARKER_TTL]);
      Limited(t) && (Truthful(t) <==> !Live(s, sid))
  {
    var t := s.(inactive := s.inactive[sid := s.now + DEAD_MARKER_TTL]);
    assert DeadTrue(t, sid) <==> !Live(s, sid);
    forall x ensures LiveTrue(t, x) && (x != sid ==> DeadTrue(t, x)) {
      assert LiveTrue(s, x) && DeadTrue(s, x);
    }
  }

  lemma RememberTruth(s: State, revoked: map<Hash, int>)
    requires Truthful(s) && Limited(s)
    ensures Limited(s.(revoked := revoked)) && Truthful(s.(revoked := revoked))
  {
    forall x ensures LiveTrue(s.(revoked := revoked), x) && DeadTrue(s.(revoked := revoked), x) {
      assert LiveTrue(s, x) && DeadTrue(s, x);
    }
  }

  lemma ThenTruth(w: World, e: Event)
    requires Truthful(w.s) && Limited(w.s) && e.Then? && e.id in w.calls
    ensures Limited(Step(w, e).s) && (Truthful(Step(w, e).s) <==> Accurate(w, e))
  {
    hide Truthful;
    match w.calls[e.id]
    case Updated(h, _, _, oldExpiry, _) => RememberTruth(w.s, w.s.revoked[h := oldExpiry]);
    case Remembered(_, sid, user, _) => MarkTruth(w.s, user, sid, w.s.refreshTTL);
    case Warming(sid, user, oldExpiry) => if w.s.now < oldExpiry { MarkTruth(w.s, user, sid, oldExpiry - w.s.now); }
    case Burying(sid) => BuryTruth(w.s, sid);
    case _ =>
  }

  /** However calls overlap, a step leaves both markers agreeing with the rows, expiry included, if and
      only if it is accurate. */
  lemma TruthStep(w: World, e: Event)
    requires Truthful(w.s) && Limited(w.s)
    ensures Limited(Step(w, e).s) && (Truthful(Step(w, e).s) <==> Accurate(w, e))
  {
    hide Truthful, Limited, Clean, Seek, Look, Write, Apply;
    match e
    case Meanwhile(x) => if !x.RefreshEvent? && !x.CheckEvent? { OtherTruth(w.s, x); }
    case Refreshing(id, _, _) => if id !in w.calls { SeekTruth(w, e); }
    case Checking(_, _, _) =>
    case Update(_, _, _) => UpdateTruth(w, e);
    case Then(id, _) => if id in w.calls { ThenTruth(w, e); }
  }

  // --- Runs ---

  ghost predicate AccurateRun(w: World, events: seq<Event>)
    decreases |events|
  {
    events == [] || (Accurate(w, events[0]) && AccurateRun(Step(w, events[0]), events[1..]))
  }

  ghost predicate AlwaysTruthful(w: World, events: seq<Event>)
    decreases |events|
  {
    Truthful(w.s) && (events == [] || AlwaysTruthful(Step(w, events[0]), events[1..]))
  }

  /** Throughout a run the markers agree with the rows if and only if every step is accurate. */
  lemma {:induction false} TruthfulExactly(w: World, events: seq<Event>)
    requires Truthful(w.s) && Limited(w.s)
    ensures AlwaysTruthful(w, events) <==> AccurateRun(w, events)
    decreases |events|
  {
    hide Truthful, Limited, Accurate, Step;
    if events != [] {
      TruthStep(w, events[0]);
      if Accurate(w, events[0]) {
        TruthfulExactly(Step(w, events[0]), events[1..]);
      }
    }
  }

  /** And then every check that begins decides as the table would: the row is unrevoked and unexpired,
      or it is not. */
  lemma {:induction false} ChecksDecideByTheTable(w: World, events: seq<Event>, sid: SessionId, c: CheckCalls)
    requires Truthful(w.s) && Limited(w.s) && AccurateRun(w, events)
    ensures var t := Play(w, events).s;
      var q := Look(t, sid, c);
      && (q == Judged(Active) || q.Warming? ==> Live(t, sid))
      && (q == Judged(Inactive) || q.Burying? ==> !Live(t, sid))
    decreases |events|
  {
    if events == [] {
      assert LiveTrue(w.s, sid) && DeadTrue(w.s, sid);
    } else {
      TruthStep(w, events[0]);
      ChecksDecideByTheTable(Step(w, events[0]), events[1..], sid, c);
    }
  }

  lemma StartsTrue(ttl: int, now: int)
    requires ttl > 0
    ensures Truthful(Start(ttl, now).s) && Limited(Start(ttl, now).s)
  {}

  // --- Runs in which every call succeeds ---

  /** A refresh finds the row, the row expires and a check finds it dead; the refresh renews it, and the
      check then marks it dead: for a minute a live session is refused. */
  lemma RenewedLooksDead(ttl: int, sid: SessionId, user: UserId, h: Hash, next: Hash)
    requires ttl >= 1000 && next != h
    ensures var t := Play(Start(ttl, 0),
                          [Meanwhile(LoginEvent(sid, user, h, Done, true)), Refreshing(1, h, REFRESH_FINE),
                           Meanwhile(Tick(ttl)), Checking(2, sid, CHECK_FINE)]
                          + [Update(1, next, Done), Then(2, Done)]).s;
      Live(t, sid) && Look(t, sid, CHECK_FINE) == Judged(Inactive)
  {
    hide Play, Seek, Login;
    var w := Start(ttl, 0);
    var a := [Meanwhile(LoginEvent(sid, user, h, Done, true)), Refreshing(1, h, REFRESH_FINE), Meanwhile(Tick(ttl)),
              Checking(2, sid, CHECK_FINE)];
    PlayAppend(w, a, [Update(1, next, Done), Then(2, Done)]);
    PlayFour(w, a);
    FirstLogin(ttl, sid, user, h);
    PlayFour(Play(w, a), [Update(1, next, Done), Then(2, Done)]);
  }

  /** A refresh marks the session some time after it has renewed the row: the marker outlives the row,
      and for that long an expired session is answered active. */
  lemma MarkerOutlivesTheRow(ttl: int, delay: int, sid: SessionId, user: UserId, h: Hash, next: Hash)
    requires ttl >= 1000 && 0 < delay < ttl && next != h
    ensures var t := Play(Start(ttl, 0),
                          [Meanwhile(LoginEvent(sid, user, h, Done, true)), Refreshing(1, h, REFRESH_FINE),
                           Update(1, next, Done), Meanwhile(Tick(delay))]
                          + [Then(1, Done), Then(1, Done), Meanwhile(Tick(ttl))]).s;
      !Live(t, sid) && Look(t, sid, CHECK_FINE) == Judged(Active)
  {
    hide Play, Seek, Login;
    var w := Start(ttl, 0);
    var a := [Meanwhile(LoginEvent(sid, user, h, Done, true)), Refreshing(1, h, REFRESH_FINE), Update(1, next, Done),
              Meanwhile(Tick(delay))];
    PlayAppend(w, a, [Then(1, Done), Then(1, Done), Meanwhile(Tick(ttl))]);
    PlayFour(w, a);
    FirstLogin(ttl, sid, user, h);
    PlayFour(Play(w, a), [Then(1, Done), Then(1, Done), Meanwhile(Tick(ttl))]);
  }
}
