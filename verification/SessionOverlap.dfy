/** Refreshes and checks of sessions that overlap: each finds the row in one step and writes in
    later ones, while logins, revocations, evictions and time go on in between. */
module SessionOverlap {
  import opened Basics
  import opened SessionMachine
  import opened SessionSafety
  import opened SessionRotation

  type CallId = int

  /** Where a call stands. A refresh: `Found` the row, `Updated` it, `Remembered` the old token,
      `Given` the new one. A check: about to write a live or a dead marker. */
  datatype Phase =
    | Found(hash: Hash, session: SessionId, user: UserId, oldExpiry: int)
    | Updated(hash: Hash, session: SessionId, user: UserId, oldExpiry: int, next: Hash)
    | Remembered(hash: Hash, session: SessionId, user: UserId, next: Hash)
    | Given(hash: Hash, next: Hash)
    | Ended(answer: Answer)
    | Warming(session: SessionId, user: UserId, oldExpiry: int)
    | Burying(session: SessionId)
    | Judged(verdict: Verdict)

  /** `replaced` are the tokens that an update has replaced on behalf of a request that had found
      them, `again` those for which that has happened more than once; the code keeps neither. */
  datatype World = World(s: State, calls: map<CallId, Phase>, replaced: set<Hash>, again: set<Hash>)

  // --- The first half: everything up to the row ---

  /** A refresh up to the update; a replayed token ends the user's sessions at once. */
  ghost function Seek(s: State, h: Hash, c: RefreshCalls): (State, Phase) {
    if !Verifies(s, h) || !c.isRevoked then (s, Ended(TokenInvalid))
    else if Holds(s.revoked, h, s.now) then
      (EndSessions(s, s.issued[h].user, c.revokeRows, c.clear), Ended(TokenInvalid))
    else if !c.find then (s, Ended(Failed))
    else
      var found := FindByHash(s, h);
      if found.None? then (s, Ended(TokenInvalid))
      else
        var row := s.rows[found.value];
        if row.expiresAt < s.now then (s, Ended(TokenExpired))
        else if row.user != s.issued[h].user || found.value != s.issued[h].session then (s, Ended(TokenInvalid))
        else (s, Found(h, found.value, row.user, row.expiresAt))
  }

  function Look(s: State, sid: SessionId, c: CheckCalls): Phase {
    if c.isActive && Holds(s.active, sid, s.now) then Judged(Active)
    else if c.isInactive && Holds(s.inactive, sid, s.now) then Judged(Inactive)
    else if !c.find then Judged(Unknown)
    else if !Live(s, sid) then Burying(sid)
    else Warming(sid, s.rows[sid].user, s.rows[sid].expiresAt)
  }

  // --- The writes ---

  /** The update names the session and no hash, and finds no revoked row. */
  predicate Reaches(w: World, q: Phase, next: Hash, o: Outcome) {
    && q.Found? && o != Refused && next !in w.s.issued
    && q.hash in w.s.issued && q.session in w.s.rows && !w.s.rows[q.session].revoked
  }

  function Write(s: State, q: Phase, o: Outcome): (State, Phase) {
    match q
    case Updated(h, sid, user, oldExpiry, next) =>
      (if o != Refused && s.now < oldExpiry then s.(revoked := s.revoked[h := oldExpiry]) else s,
       Remembered(h, sid, user, next))
    case Remembered(h, sid, user, next) =>
      (if o != Refused then MarkActive(s, user, sid, s.refreshTTL) else s, Given(h, next))
    case Warming(sid, user, oldExpiry) =>
      (if o != Refused && s.now < oldExpiry then MarkActive(s, user, sid, oldExpiry - s.now) else s, Judged(Active))
    case Burying(sid) =>
      (if o != Refused then s.(inactive := s.inactive[sid := s.now + DEAD_MARKER_TTL]) else s, Judged(Inactive))
    case _ => (s, q)
  }

  // --- Runs ---

  datatype Event =
    | Meanwhile(event: SessionMachine.Event)
    | Refreshing(id: CallId, hash: Hash, refreshCalls: RefreshCalls)
    | Checking(id: CallId, session: SessionId, checkCalls: CheckCalls)
    | Update(id: CallId, next: Hash, outcome: Outcome)
    | Then(id: CallId, outcome: Outcome)

  ghost function Step(w: World, e: Event): World {
    match e
    case Meanwhile(x) => if x.RefreshEvent? || x.CheckEvent? then w else w.(s := Apply(w.s, x))
    case Refreshing(id, h, c) =>
      if id in w.calls then w else var (t, q) := Seek(w.s, h, c); w.(s := t, calls := w.calls[id := q])
    case Checking(id, sid, c) => if id in w.calls then w else w.(calls := w.calls[id := Look(w.s, sid, c)])
    case Update(id, next, o) =>
      if id !in w.calls || !w.calls[id].Found? || next in w.s.issued then w
      else
        var q := w.calls[id];
        if !Reaches(w, q, next, o) then w.(calls := w.calls[id := Ended(Failed)])
        else World(Rotated(w.s, q.hash, q.session, next),
                   w.calls[id := if o == Done then Updated(q.hash, q.session, q.user, q.oldExpiry, next)
                                 else Ended(Failed)],
                   w.replaced + {q.hash}, if q.hash in w.replaced then w.again + {q.hash} else w.again)
    case Then(id, o) =>
      if id !in w.calls then w
      else var (t, q) := Write(w.s, w.calls[id], o); w.(s := t, calls := w.calls[id := q])
  }

  ghost function Play(w: World, events: seq<Event>): World
    decreases |events|
  {
    if events == [] then w else Play(Step(w, events[0]), events[1..])
  }

  function Start(refreshTTL: int, now: int): World {
    World(Initial(refreshTTL, now), map[], {}, {})
  }

  lemma {:induction false} PlayAppend(w: World, first: seq<Event>, rest: seq<Event>)
    ensures Play(w, first + rest) == Play(Play(w, first), rest)
    decreases |first|
  {
    hide Step;
    if first == [] {
      assert first + rest == rest;
    } else {
      assert (first + rest)[1..] == first[1..] + rest;
      PlayAppend(Step(w, first[0]), first[1..], rest);
    }
  }

  // --- At most one exchange, exactly ---

  /** No token was replaced twice on behalf of requests that had found it. */
  predicate Once(w: World) { w.again == {} }

  predicate Current(s: State, h: Hash) {
    h in s.issued && s.issued[h].session in s.rows && s.rows[s.issued[h].session].hash == h
  }

  predicate RowNamed(s: State, sid: SessionId)
    requires sid in s.rows
  {
    s.rows[sid].hash in s.issued && s.issued[s.rows[sid].hash].session == sid
  }

  predicate Gone(s: State, h: Hash) { h in s.issued && s.issued[h].session in s.rows && !Current(s, h) }

  predicate FoundOk(w: World, q: Phase) {
    q.Found? ==>
      && q.hash in w.s.issued && w.s.issued[q.hash].session == q.session && q.session in w.s.rows
      && (Current(w.s, q.hash) || q.hash in w.replaced)
  }

  /** A token that was replaced is no longer its session's; a token that was found is its
      session's still, or was replaced since. */
  ghost predicate Traced(w: World) {
    && (forall sid {:trigger RowNamed(w.s, sid)} :: sid in w.s.rows ==> RowNamed(w.s, sid))
    && (forall h {:trigger Gone(w.s, h)} {:trigger h in w.replaced} :: h in w.replaced ==> Gone(w.s, h))
    && (forall h {:trigger w.s.issued[h]} :: h in w.s.issued ==> w.s.issued[h].session in w.s.rows)
    && (forall id {:trigger w.calls[id]} :: id in w.calls ==> FoundOk(w, w.calls[id]))
  }

  /** The session's row has not been given another token since the request found it: what the
      update does not ask. */
  predicate Undisturbed(w: World, e: Event) {
    e.Update? && e.id in w.calls && Reaches(w, w.calls[e.id], e.next, e.outcome) ==>
      w.s.rows[w.calls[e.id].session].hash == w.calls[e.id].hash
  }

  /** An update that replaces a token. */
  predicate Replaces(w: World, e: Event) {
    e.Update? && e.id in w.calls && Reaches(w, w.calls[e.id], e.next, e.outcome)
  }

  lemma UpdateOnce(w: World, e: Event)
    requires Traced(w) && Once(w) && Replaces(w, e)
    ensures Once(Step(w, e)) <==> Undisturbed(w, e)
    ensures Undisturbed(w, e) ==> Traced(Step(w, e))
  {
    var q, v := w.calls[e.id], Step(w, e);
    assert FoundOk(w, q) && RowNamed(w.s, q.session);
    assert q.hash in w.replaced ==> Gone(w.s, q.hash);
    if Undisturbed(w, e) {
      forall sid | sid in v.s.rows ensures RowNamed(v.s, sid) {
        assert RowNamed(w.s, sid);
      }
      forall h | h in v.replaced ensures Gone(v.s, h) {
        assert h == q.hash || Gone(w.s, h);
      }
      forall id | id in v.calls ensures FoundOk(v, v.calls[id]) {
        assert id != e.id ==> v.calls[id] == w.calls[id] && FoundOk(w, w.calls[id]);
      }
    }
  }

  /** Steps that give no session another token, and find tokens only where they are. */
  ghost predicate Keeps(w: World, v: World) {
    && v.replaced == w.replaced && v.again == w.again
    && (forall h {:trigger w.s.issued[h]} :: h in w.s.issued ==> h in v.s.issued && v.s.issued[h] == w.s.issued[h])
    && (forall h {:trigger v.s.issued[h]} :: h in v.s.issued ==> v.s.issued[h].session in v.s.rows)
    && (forall sid {:trigger v.s.rows[sid]} :: sid in w.s.rows ==>
          sid in v.s.rows && v.s.rows[sid].hash == w.s.rows[sid].hash)
    && (forall sid {:trigger RowNamed(v.s, sid)} :: sid in v.s.rows && sid !in w.s.rows ==> RowNamed(v.s, sid))
    && (forall id {:trigger v.calls[id]} :: id in v.calls ==>
          (id in w.calls && v.calls[id] == w.calls[id]) || FoundOk(v, v.calls[id]))
  }

  lemma KeepsTraced(w: World, v: World)
    requires Traced(w) && Keeps(w, v)
    ensures Traced(v)
  {
    forall sid | sid in v.s.rows ensures RowNamed(v.s, sid) {
      assert sid in w.s.rows ==> RowNamed(w.s, sid);
    }
    forall h | h in v.replaced ensures Gone(v.s, h) {
      assert Gone(w.s, h);
    }
    forall id | id in v.calls ensures FoundOk(v, v.calls[id]) {
      if id in w.calls && v.calls[id] == w.calls[id] {
        assert FoundOk(w, w.calls[id]);
        var q := w.calls[id];
        assert q.Found? ==> Current(w.s, q.hash) == Current(v.s, q.hash);
      }
    }
  }

  predicate CallsOk(w: World, v: World) {
    forall id {:trigger v.calls[id]} :: id in v.calls ==>
      (id in w.calls && v.calls[id] == w.calls[id]) || FoundOk(v, v.calls[id])
  }

  lemma RevokesKeeps(w: World, v: World)
    requires Traced(w) && Revokes(w.s, v.s) && v.replaced == w.replaced && v.again == w.again && CallsOk(w, v)
    ensures Keeps(w, v)
  {
    assert forall sid :: sid in w.s.rows ==> RowRevokes(w.s, v.s, sid);
  }

  lemma LoginKeeps(w: World, e: SessionMachine.Event)
    requires Traced(w) && e.LoginEvent?
    ensures Keeps(w, Step(w, Meanwhile(e)))
  {}

  lemma OtherKeeps(w: World, e: SessionMachine.Event)
    requires Traced(w) && !e.RefreshEvent? && !e.CheckEvent?
    ensures Keeps(w, Step(w, Meanwhile(e)))
  {
    hide Logout, EndSessions, Login, Revokes;
    if IsRevocation(e) {
      RevocationRevokes(w.s, e);
      RevokesKeeps(w, Step(w, Meanwhile(e)));
    } else if e.LoginEvent? {
      LoginKeeps(w, e);
    }
  }

  lemma Seeks(s: State, h: Hash, c: RefreshCalls)
    ensures var (t, q) := Seek(s, h, c);
      && Revokes(s, t)
      && (q.Found? ==> t == s && q.hash == h && Current(s, h) && q.session == s.issued[h].session)
  {
    hide EndSessions;
    if h in s.issued {
      EndSessionsRevokes(s, s.issued[h].user, c.revokeRows, c.clear);
    }
  }

  lemma SeekKeeps(w: World, e: Event)
    requires Traced(w) && e.Refreshing? && e.id !in w.calls
    ensures Keeps(w, Step(w, e))
  {
    hide Seek, Traced, Keeps, Revokes;
    Seeks(w.s, e.hash, e.refreshCalls);
    RevokesKeeps(w, Step(w, e));
  }

  lemma WriteKeeps(w: World, e: Event)
    requires Traced(w) && e.Then? && e.id in w.calls
    ensures Keeps(w, Step(w, e))
  {
    hide Write;
    WriteLeaves(w.s, w.calls[e.id], e.outcome);
  }

  lemma WriteLeaves(s: State, q: Phase, o: Outcome)
    ensures var (t, p) := Write(s, q, o);
      && t.refreshTTL == s.refreshTTL && t.now == s.now && t.rows == s.rows && t.issued == s.issued
      && (p.Found? ==> p == q)
  {}

  lemma QuietKeeps(w: World, e: Event)
    requires Traced(w)
    requires e.Checking? || (e.Update? && !Replaces(w, e)) || (e.Refreshing? && e.id in w.calls)
             || (e.Then? && e.id !in w.calls)
    ensures Keeps(w, Step(w, e))
  {
    hide Look;
    if e.Checking? {
      LookFindsNone(w.s, e.session, e.checkCalls);
    }
  }

  lemma LookFindsNone(s: State, sid: SessionId, c: CheckCalls)
    ensures !Look(s, sid, c).Found?
  {}

  /** A step replaces no token a second time if and only if it is undisturbed. */
  lemma OnceStep(w: World, e: Event)
    requires Traced(w) && Once(w)
    ensures Once(Step(w, e)) <==> Undisturbed(w, e)
    ensures Undisturbed(w, e) ==> Traced(Step(w, e))
  {
    hide Traced, Keeps, Seek, Look, Write, Apply;
    if Replaces(w, e) {
      UpdateOnce(w, e);
    } else {
      if e.Meanwhile? {
        if !e.event.RefreshEvent? && !e.event.CheckEvent? {
          OtherKeeps(w, e.event);
          KeepsTraced(w, Step(w, e));
        }
      } else {
        if e.Refreshing? && e.id !in w.calls {
          SeekKeeps(w, e);
        } else if e.Then? && e.id in w.calls {
          WriteKeeps(w, e);
        } else {
          QuietKeeps(w, e);
        }
        KeepsTraced(w, Step(w, e));
      }
      SameRotations(w, e);
    }
  }

  lemma SameRotations(w: World, e: Event)
    ensures !Replaces(w, e) ==> Step(w, e).again == w.again
    ensures Once(Step(w, e)) ==> Once(w)
  {
    hide Seek, Look, Write, Apply;
  }

  ghost predicate UndisturbedRun(w: World, events: seq<Event>)
    decreases |events|
  {
    events == [] || (Undisturbed(w, events[0]) && UndisturbedRun(Step(w, events[0]), events[1..]))
  }

  lemma {:induction false} TwiceIsForGood(w: World, events: seq<Event>)
    requires !Once(w)
    ensures !Once(Play(w, events))
    decreases |events|
  {
    hide Once, Step;
    if events != [] {
      SameRotations(w, events[0]);
      TwiceIsForGood(Step(w, events[0]), events[1..]);
    }
  }

  /** However calls overlap, every token is replaced at most once if and only if no row was given
      another token between a refresh's find and its update. */
  lemma {:induction false} AtMostOnceExactly(w: World, events: seq<Event>)
    requires Traced(w) && Once(w)
    ensures Once(Play(w, events)) <==> UndisturbedRun(w, events)
    decreases |events|
  {
    hide Once, Traced, Step;
    if events != [] {
      OnceStep(w, events[0]);
      if Undisturbed(w, events[0]) {
        AtMostOnceExactly(Step(w, events[0]), events[1..]);
      } else {
        TwiceIsForGood(Step(w, events[0]), events[1..]);
      }
    }
  }

  /** The call has, or will be given, the token that replaced this one. */
  predicate Exchanges(w: World, id: CallId, h: Hash) {
    && id in w.calls
    && (w.calls[id].Updated? || w.calls[id].Remembered? || w.calls[id].Given?)
    && w.calls[id].hash == h
  }

  ghost predicate Counted(w: World) {
    && (forall id, h {:trigger Exchanges(w, id, h)} :: Exchanges(w, id, h) ==> h in w.replaced)
    && (forall i, j, h {:trigger Exchanges(w, i, h), Exchanges(w, j, h)} ::
          i != j && Exchanges(w, i, h) && Exchanges(w, j, h) ==> h in w.again)
  }

  lemma CountedStep(w: World, e: Event)
    requires Counted(w)
    ensures Counted(Step(w, e))
  {
    hide Seek, Look, Apply;
    var v := Step(w, e);
    if e.Refreshing? { SeekEnds(w.s, e.hash, e.refreshCalls); }
    if e.Checking? { LookEnds(w.s, e.session, e.checkCalls); }
    forall id, h | Exchanges(v, id, h)
      ensures Exchanges(w, id, h) || (Replaces(w, e) && id == e.id && h == w.calls[e.id].hash)
    {
    }
  }

  lemma SeekEnds(s: State, h: Hash, c: RefreshCalls)
    ensures Seek(s, h, c).1.Found? || Seek(s, h, c).1.Ended?
  {}

  lemma LookEnds(s: State, sid: SessionId, c: CheckCalls)
    ensures var q := Look(s, sid, c); q.Judged? || q.Warming? || q.Burying?
  {}

  /** So in every undisturbed run no two requests are given tokens for the same token. */
  lemma {:induction false} GivenOnce(w: World, events: seq<Event>, i: CallId, j: CallId)
    requires Traced(w) && Once(w) && Counted(w) && UndisturbedRun(w, events) && i != j
    ensures var v := Play(w, events);
      i in v.calls && j in v.calls && v.calls[i].Given? && v.calls[j].Given? ==> v.calls[i].hash != v.calls[j].hash
    decreases |events|
  {
    hide Traced, Counted, Step;
    if events == [] {
      if i in w.calls && j in w.calls && w.calls[i].Given? && w.calls[j].Given? {
        GivenApart(w, i, j);
      }
    } else {
      OnceStep(w, events[0]);
      CountedStep(w, events[0]);
      GivenOnce(Step(w, events[0]), events[1..], i, j);
    }
  }

  lemma GivenApart(w: World, i: CallId, j: CallId)
    requires Once(w) && Counted(w) && i != j && i in w.calls && j in w.calls && w.calls[i].Given? && w.calls[j].Given?
    ensures w.calls[i].hash != w.calls[j].hash
  {
    assert Exchanges(w, i, w.calls[i].hash) && Exchanges(w, j, w.calls[j].hash);
  }

  // --- Live markers on revoked sessions, exactly ---

  /** The session whose live marker a step writes. */
  function Marks(w: World, e: Event): Option<SessionId> {
    if !e.Then? || e.id !in w.calls || e.outcome == Refused then None
    else
      match w.calls[e.id]
      case Remembered(_, sid, _, _) => Some(sid)
      case Warming(sid, _, oldExpiry) => if w.s.now < oldExpiry then Some(sid) else None
      case _ => None
  }

  predicate IsReplay(w: World, e: Event) {
    && e.Refreshing? && e.id !in w.calls && Verifies(w.s, e.hash) && e.refreshCalls.isRevoked
    && Holds(w.s.revoked, e.hash, w.s.now)
  }

  /** A revocation deletes the live markers it meets, and no marker is written for a session
      revoked since its row was found. */
  predicate Timely(w: World, e: Event) {
    match e
    case Meanwhile(x) => x.RefreshEvent? || x.CheckEvent? || Clean(w.s, x)
    case Refreshing(_, h, c) => IsReplay(w, e) ==> Clean(w.s, ChangeEvent(w.s.issued[h].user, c.revokeRows, c.clear))
    case Then(_, _) =>
      var marked := Marks(w, e);
      marked.Some? && marked.value in w.s.rows ==> !w.s.rows[marked.value].revoked
    case _ => true
  }

  lemma OtherHonest(s: State, e: SessionMachine.Event)
    requires Honest(s) && !e.RefreshEvent? && !e.CheckEvent?
    ensures Honest(Apply(s, e)) <==> Clean(s, e)
    ensures Apply(s, e).refreshTTL == s.refreshTTL
  {
    hide Apply;
    var t := Apply(s, e);
    OtherKeepsTTL(s, e);
    if Clean(s, e) {
      forall sid | sid in t.rows && t.rows[sid].revoked ensures !Holds(t.active, sid, t.now) {
        if IsRevocation(e) { RevocationOnSession(s, e, sid); } else { OtherOnSession(s, e, sid); }
      }
    } else {
      var sid :| sid in Hits(s, e) && sid in s.rows && Holds(s.active, sid, s.now) && sid !in Clears(s, e);
      RevocationOnSession(s, e, sid);
      assert t.rows[sid].revoked && Holds(t.active, sid, t.now);
    }
  }

  lemma OtherKeepsTTL(s: State, e: SessionMachine.Event)
    requires !e.RefreshEvent? && !e.CheckEvent?
    ensures Apply(s, e).refreshTTL == s.refreshTTL
  {
    hide Logout, EndSessions, Revokes;
    if IsRevocation(e) {
      RevocationRevokes(s, e);
      RevokesKeepsTTL(s, Apply(s, e));
    }
  }

  lemma RevokesKeepsTTL(s: State, t: State)
    requires Revokes(s, t)
    ensures t.refreshTTL == s.refreshTTL && t.now == s.now
  {}

  lemma SeekHonest(w: World, e: Event)
    requires Honest(w.s) && e.Refreshing? && e.id !in w.calls
    ensures Honest(Step(w, e).s) <==> Timely(w, e)
    ensures Step(w, e).s.refreshTTL == w.s.refreshTTL
  {
    hide Honest, Clean, EndSessions;
    if IsReplay(w, e) {
      OtherHonest(w.s, ChangeEvent(w.s.issued[e.hash].user, e.refreshCalls.revokeRows, e.refreshCalls.clear));
    }
  }

  lemma MarkHonest(s: State, user: UserId, sid: SessionId, ttl: int)
    requires Honest(s) && ttl > 0
    ensures Honest(MarkActive(s, user, sid, ttl)) <==> !(sid in s.rows && s.rows[sid].revoked)
  {
    var t := MarkActive(s, user, sid, ttl);
    assert Holds(t.active, sid, t.now);
  }

  lemma QuietHonest(s: State, t: State)
    requires Honest(s) && t.rows == s.rows && t.active == s.active && t.now == s.now
    ensures Honest(t)
  {}

  lemma ThenHonest(w: World, e: Event)
    requires Honest(w.s) && w.s.refreshTTL > 0 && e.Then? && e.id in w.calls
    ensures Honest(Step(w, e).s) <==> Timely(w, e)
    ensures Step(w, e).s.refreshTTL == w.s.refreshTTL
  {
    hide Honest;
    match w.calls[e.id]
    case Remembered(_, sid, user, _) => MarkHonest(w.s, user, sid, w.s.refreshTTL);
    case Warming(sid, user, oldExpiry) => if w.s.now < oldExpiry { MarkHonest(w.s, user, sid, oldExpiry - w.s.now); }
    case _ => QuietHonest(w.s, Step(w, e).s);
  }

  lemma UpdateHonest(w: World, e: Event)
    requires Honest(w.s) && (e.Update? || e.Checking?)
    ensures Honest(Step(w, e).s)
    ensures Step(w, e).s.refreshTTL == w.s.refreshTTL
  {
    hide Look;
  }

  /** A step leaves no live marker on a revoked session if and only if it is timely. */
  lemma HonestOverlap(w: World, e: Event)
    requires Honest(w.s) && w.s.refreshTTL > 0
    ensures Honest(Step(w, e).s) <==> Timely(w, e)
    ensures Step(w, e).s.refreshTTL == w.s.refreshTTL
  {
    hide Honest, Clean, Seek, Look, Write, Apply;
    match e
    case Meanwhile(x) => if !x.RefreshEvent? && !x.CheckEvent? { OtherHonest(w.s, x); }
    case Refreshing(id, _, _) => if id !in w.calls { SeekHonest(w, e); }
    case Then(id, _) => if id in w.calls { ThenHonest(w, e); }
    case _ => UpdateHonest(w, e);
  }

  ghost predicate TimelyRun(w: World, events: seq<Event>)
    decreases |events|
  {
    events == [] || (Timely(w, events[0]) && TimelyRun(Step(w, events[0]), events[1..]))
  }

  /** However calls overlap, in every timely run no check that begins after a session was revoked
      answers active, or is about to. One that began before still may. */
  lemma {:induction false} RevokedIsRefused(w: World, events: seq<Event>, sid: SessionId, c: CheckCalls)
    requires Honest(w.s) && w.s.refreshTTL > 0 && TimelyRun(w, events)
    ensures var t := Play(w, events).s;
      sid in t.rows && t.rows[sid].revoked ==> Look(t, sid, c) in {Judged(Inactive), Judged(Unknown), Burying(sid)}
    decreases |events|
  {
    if events != [] {
      HonestOverlap(w, events[0]);
      RevokedIsRefused(Step(w, events[0]), events[1..], sid, c);
    }
  }

  // --- When a revocation is final, exactly ---

  /** A call that may still write a live marker for the session. */
  predicate MayMark(s: State, q: Phase, sid: SessionId) {
    || ((q.Updated? || q.Remembered?) && q.session == sid)
    || (q.Warming? && q.session == sid && s.now < q.oldExpiry)
  }

  /** The row is revoked, no live marker stands on it, and no call may still write one. */
  ghost predicate Settled(w: World, sid: SessionId) {
    && Finished(w.s, sid)
    && forall id {:trigger w.calls[id]} :: id in w.calls ==> !MayMark(w.s, w.calls[id], sid)
  }

  lemma SeekSettles(s: State, h: Hash, c: RefreshCalls, sid: SessionId)
    requires Finished(s, sid)
    ensures var (t, q) := Seek(s, h, c); Finished(t, sid) && t.now == s.now && (q.Found? || q.Ended?)
  {
    hide EndSessions;
    SeekEnds(s, h, c);
    if h in s.issued {
      EndSessionsOnSession(s, s.issued[h].user, c.revokeRows, c.clear, sid);
    }
  }

  lemma LookSettles(s: State, sid: SessionId, x: SessionId, c: CheckCalls)
    requires Finished(s, sid)
    ensures !MayMark(s, Look(s, x, c), sid) && Look(s, sid, c) in {Judged(Inactive), Judged(Unknown), Burying(sid)}
  {}

  lemma OtherSettles(s: State, e: SessionMachine.Event, sid: SessionId)
    requires Finished(s, sid) && !e.RefreshEvent? && !e.CheckEvent?
    ensures Finished(Apply(s, e), sid) && s.now <= Apply(s, e).now
  {
    hide Apply;
    OtherKeepsTime(s, e);
    if IsRevocation(e) { RevocationOnSession(s, e, sid); } else { OtherOnSession(s, e, sid); }
  }

  lemma OtherKeepsTime(s: State, e: SessionMachine.Event)
    requires !e.RefreshEvent? && !e.CheckEvent?
    ensures s.now <= Apply(s, e).now
  {
    hide Logout, EndSessions, Revokes;
    if IsRevocation(e) {
      RevocationRevokes(s, e);
      RevokesKeepsTTL(s, Apply(s, e));
    }
  }

  lemma WriteSettles(s: State, q: Phase, o: Outcome, sid: SessionId)
    requires Finished(s, sid) && !MayMark(s, q, sid)
    ensures var (t, p) := Write(s, q, o); Finished(t, sid) && t.now == s.now && !MayMark(t, p, sid)
  {}

  lemma UpdateSettles(w: World, e: Event, sid: SessionId)
    requires Settled(w, sid) && e.Update?
    ensures Settled(Step(w, e), sid)
  {}

  lemma SettledStep(w: World, e: Event, sid: SessionId)
    requires Settled(w, sid)
    ensures Settled(Step(w, e), sid)
  {
    hide Finished, Seek, Look, Write, Apply;
    match e
    case Meanwhile(x) => if !x.RefreshEvent? && !x.CheckEvent? { OtherSettles(w.s, x, sid); }
    case Refreshing(id, h, c) => if id !in w.calls { SeekSettles(w.s, h, c, sid); }
    case Checking(id, x, c) => if id !in w.calls { LookSettles(w.s, sid, x, c); }
    case Update(_, _, _) => UpdateSettles(w, e, sid);
    case Then(id, o) => if id in w.calls { WriteSettles(w.s, w.calls[id], o, sid); }
  }

  /** From such a point on a revocation is final: in every continuation, whatever fails and whatever
      overlaps, each check that begins is refused. */
  lemma {:induction false} SettledForGood(w: World, events: seq<Event>, sid: SessionId, c: CheckCalls)
    requires Settled(w, sid)
    ensures Look(Play(w, events).s, sid, c) in {Judged(Inactive), Judged(Unknown), Burying(sid)}
    decreases |events|
  {
    hide Settled, Step;
    if events == [] {
      assert Finished(w.s, sid) by { SettledIsFinished(w, sid); }
      LookSettles(w.s, sid, sid, c);
    } else {
      SettledStep(w, events[0], sid);
      SettledForGood(Step(w, events[0]), events[1..], sid, c);
    }
  }

  lemma SettledIsFinished(w: World, sid: SessionId)
    requires Settled(w, sid)
    ensures Finished(w.s, sid)
  {}

  /** A call that may still mark a revoked session can make the next check answer active. */
  lemma MarksLate(w: World, id: CallId, sid: SessionId) returns (events: seq<Event>)
    requires id in w.calls && MayMark(w.s, w.calls[id], sid) && w.s.refreshTTL > 0
    ensures events == if w.calls[id].Updated? then [Then(id, Done), Then(id, Done)] else [Then(id, Done)]
    ensures Look(Play(w, events).s, sid, CHECK_FINE) == Judged(Active)
  {
    hide Play;
    var write := Then(id, Done);
    events := if w.calls[id].Updated? then [write, write] else [write];
    PlayFour(w, events);
  }

  /** And from no other point: a revoked session is refused by every check that begins in every
      continuation if and only if no live marker stands on it and no call may still write one. */
  lemma FinalExactly(w: World, sid: SessionId)
    requires sid in w.s.rows && w.s.rows[sid].revoked && w.s.refreshTTL > 0
    ensures Settled(w, sid) <==> forall events, c :: Look(Play(w, events).s, sid, c) != Judged(Active)
  {
    if Settled(w, sid) {
      forall events, c ensures Look(Play(w, events).s, sid, c) != Judged(Active) {
        SettledForGood(w, events, sid, c);
      }
    } else if Holds(w.s.active, sid, w.s.now) {
      assert Look(Play(w, []).s, sid, CHECK_FINE) == Judged(Active);
    } else {
      var id :| id in w.calls && MayMark(w.s, w.calls[id], sid);
      var events := MarksLate(w, id, sid);
    }
  }

  // --- A call alone is the whole call ---

  function Takes(b: bool): Outcome { if b then Done else Refused }

  function AnswerOf(q: Phase): Answer {
    if q.Given? then Tokens(q.next) else if q.Ended? then q.answer else Failed
  }

  lemma PlayFour(w: World, events: seq<Event>)
    ensures |events| == 1 ==> Play(w, events) == Step(w, events[0])
    ensures |events| == 2 ==> Play(w, events) == Step(Step(w, events[0]), events[1])
    ensures |events| == 3 ==> Play(w, events) == Step(Step(Step(w, events[0]), events[1]), events[2])
    ensures |events| == 4 ==> Play(w, events) == Step(Step(Step(Step(w, events[0]), events[1]), events[2]), events[3])
  {
    hide Step;
    if |events| > 0 {
      PlayAppend(w, events[..1], events[1..]);
      assert events == events[..1] + events[1..];
    }
    if |events| > 1 {
      PlayAppend(Step(w, events[0]), events[1..2], events[2..]);
      assert events[1..] == events[1..2] + events[2..];
    }
    if |events| > 2 {
      PlayAppend(Step(Step(w, events[0]), events[1]), events[2..3], events[3..]);
      assert events[2..] == events[2..3] + events[3..];
    }
    if |events| > 3 {
      PlayAppend(Step(Step(Step(w, events[0]), events[1]), events[2]), events[3..4], events[4..]);
      assert events[3..] == events[3..4] + events[4..];
    }
  }

  /** A refresh with nobody in between leaves the stores, and gives the answer, of the whole call. */
  lemma RefreshAlone(w: World, id: CallId, h: Hash, next: Hash, c: RefreshCalls)
    requires id !in w.calls && next !in w.s.issued
    ensures var v := Play(w, [Refreshing(id, h, c), Update(id, next, c.update),
                              Then(id, Takes(c.mark)), Then(id, Takes(c.markActive))]);
      id in v.calls && (v.s, AnswerOf(v.calls[id])) == Refresh(w.s, h, next, c)
  {
    hide EndSessions, MarkActive, Play;
    var es := [Refreshing(id, h, c), Update(id, next, c.update), Then(id, Takes(c.mark)),
        Then(id, Takes(c.markActive))];
    PlayFour(w, es);
    var w1 := Step(w, es[0]);
    var w2 := Step(w1, es[1]);
    SeekEnds(w.s, h, c);
  }

  lemma CheckAlone(w: World, id: CallId, sid: SessionId, c: CheckCalls)
    requires id !in w.calls
    ensures var v := Play(w, [Checking(id, sid, c), Then(id, Takes(c.mark))]);
      id in v.calls && v.calls[id].Judged? && (v.s, v.calls[id].verdict) == Check(w.s, sid, c)
  {
    hide MarkActive;
    PlayFour(w, [Checking(id, sid, c), Then(id, Takes(c.mark))]);
  }

  // --- Runs in which every call succeeds ---

  const REFRESH_FINE := RefreshCalls(true, true, Done, true, true, true, true)
  const CHECK_FINE := CheckCalls(true, true, true, true)

  function LoggedIn(ttl: int, sid: SessionId, user: UserId, h: Hash): State {
    Initial(ttl, 0).(rows := map[sid := Row(user, h, ttl, false)],
        issued := map[h := Claims(user, sid, WholeSecond(ttl))],
                     active := map[sid := ttl], members := map[user := Members({sid}, ttl)])
  }

  lemma FirstLogin(ttl: int, sid: SessionId, user: UserId, h: Hash)
    requires ttl >= 1000
    ensures var w := Step(Start(ttl, 0), Meanwhile(LoginEvent(sid, user, h, Done, true)));
      w == World(LoggedIn(ttl, sid, user, h), map[], {}, {})
    ensures Seek(LoggedIn(ttl, sid, user, h), h, REFRESH_FINE) ==
            (LoggedIn(ttl, sid, user, h), Found(h, sid, user, ttl))
  {
    var s := LoggedIn(ttl, sid, user, h);
    assert HeldBy(s, h, sid);
    assert Listed(Initial(ttl, 0), user) + {sid} == {sid};
  }

  function BothFound(ttl: int, sid: SessionId, user: UserId, h: Hash): World {
    World(LoggedIn(ttl, sid, user, h), map[1 := Found(h, sid, user, ttl), 2 := Found(h, sid, user, ttl)], {}, {})
  }

  function BothUpdated(ttl: int, sid: SessionId, user: UserId, h: Hash, first: Hash, second: Hash): World {
    var claims := Claims(user, sid, WholeSecond(ttl));
    World(LoggedIn(ttl, sid, user, h).(rows := map[sid := Row(user, second, ttl, false)],
                                       issued := map[h := claims, first := claims, second := claims]),
          map[1 := Updated(h, sid, user, ttl, first), 2 := Updated(h, sid, user, ttl, second)], {h}, {h})
  }

  lemma BothUpdate(ttl: int, sid: SessionId, user: UserId, h: Hash, first: Hash, second: Hash)
    requires h != first && h != second && first != second
    ensures Play(BothFound(ttl, sid, user, h), [Update(1, first, Done), Update(2, second, Done)]) ==
            BothUpdated(ttl, sid, user, h, first, second)
  {
    hide Play;
    PlayFour(BothFound(ttl, sid, user, h), [Update(1, first, Done), Update(2, second, Done)]);
  }

  lemma Finishes(w: World, id: CallId)
    requires id in w.calls && w.calls[id].Updated?
    ensures var v, q := Play(w, [Then(id, Done), Then(id, Done)]), w.calls[id];
      && v.calls == w.calls[id := Given(q.hash, q.next)] && v.again == w.again
      && v.s.rows == w.s.rows && v.s.issued == w.s.issued && v.s.now == w.s.now
      && v.s.revoked.Keys <= w.s.revoked.Keys + {q.hash}
  {
    hide Play;
    PlayFour(w, [Then(id, Done), Then(id, Done)]);
  }

  function Overlapping(sid: SessionId, user: UserId, h: Hash, first: Hash, second: Hash): seq<Event> {
    [Meanwhile(LoginEvent(sid, user, h, Done, true)), Refreshing(1, h, REFRESH_FINE), Refreshing(2, h, REFRESH_FINE)]
    + [Update(1, first, Done), Update(2, second, Done)]
    + [Then(1, Done), Then(1, Done)] + [Then(2, Done), Then(2, Done)]
  }

  /** Two refreshes find the row before either updates it, and both are given tokens. The session
      follows the second; the first one's token is rotated out and not remembered, so its use
      goes undetected. */
  lemma OverlappingRefreshes(ttl: int, sid: SessionId, user: UserId, h: Hash, first: Hash, second: Hash)
    requires ttl >= 1000 && h != first && h != second && first != second
    ensures var v := Play(Start(ttl, 0), Overlapping(sid, user, h, first, second));
      && 1 in v.calls && v.calls[1] == Given(h, first) && 2 in v.calls && v.calls[2] == Given(h, second)
      && !Once(v) && Current(v.s, second) && RotatedOut(v.s, first) && Verifies(v.s, first) && !Marked(v.s, first)
  {
    hide Play, Seek, Step;
    var w := Start(ttl, 0);
    var a := [Meanwhile(LoginEvent(sid, user, h, Done, true)), Refreshing(1, h, REFRESH_FINE),
        Refreshing(2, h, REFRESH_FINE)];
    var b := [Update(1, first, Done), Update(2, second, Done)];
    var c, d := [Then(1, Done), Then(1, Done)], [Then(2, Done), Then(2, Done)];
    PlayAppend(w, a + b + c, d);
    PlayAppend(w, a + b, c);
    PlayAppend(w, a, b);
    BothFind(ttl, sid, user, h);
    BothUpdate(ttl, sid, user, h, first, second);
    Finishes(Play(w, a + b), 1);
    Finishes(Play(w, a + b + c), 2);
  }

  lemma BothFind(ttl: int, sid: SessionId, user: UserId, h: Hash)
    requires ttl >= 1000
    ensures Play(Start(ttl, 0), [Meanwhile(LoginEvent(sid, user, h, Done, true)), Refreshing(1, h, REFRESH_FINE),
                                 Refreshing(2, h, REFRESH_FINE)]) == BothFound(ttl, sid, user, h)
  {
    hide Play, Seek, Login;
    PlayFour(Start(ttl, 0), [Meanwhile(LoginEvent(sid, user, h, Done, true)), Refreshing(1, h, REFRESH_FINE),
                             Refreshing(2, h, REFRESH_FINE)]);
    FirstLogin(ttl, sid, user, h);
  }

  /** A check finds the row live, the session is logged out, row and marker, and the check then
      marks it: later checks answer active for what was left of its life. */
  lemma CheckOutlivesLogout(ttl: int, sid: SessionId, user: UserId, h: Hash)
    requires ttl >= 1000
    ensures var t := Play(Start(ttl, 0),
                          [Meanwhile(LoginEvent(sid, user, h, Done, true)), Meanwhile(LoseActive(sid)),
                           Checking(1, sid, CHECK_FINE)]
                          + [Meanwhile(LogoutEvent(sid, user, Done, true)), Then(1, Done)]).s;
      sid in t.rows && t.rows[sid].revoked && Look(t, sid, CHECK_FINE) == Judged(Active)
  {
    hide Play, Seek;
    var w := Start(ttl, 0);
    var a := [Meanwhile(LoginEvent(sid, user, h, Done, true)), Meanwhile(LoseActive(sid)),
        Checking(1, sid, CHECK_FINE)];
    var b := [Meanwhile(LogoutEvent(sid, user, Done, true)), Then(1, Done)];
    PlayAppend(w, a, b);
    PlayFour(w, a);
    FirstLogin(ttl, sid, user, h);
    PlayFour(Play(w, a), b);
  }

  lemma LogoutRevokesRow(s: State, sid: SessionId, user: UserId)
    requires sid in s.rows
    ensures var t := Apply(s, LogoutEvent(sid, user, Done, true));
      sid in t.rows && t.rows[sid].revoked && t.refreshTTL == s.refreshTTL
  {}

  lemma MarksAfterLogout(w: World, user: UserId)
    requires 1 in w.calls && w.calls[1].Updated? && w.calls[1].session in w.s.rows && w.s.refreshTTL > 0
    ensures var sid := w.calls[1].session;
      var t := Play(w, [Meanwhile(LogoutEvent(sid, user, Done, true))] + [Then(1, Done), Then(1, Done)]).s;
      && sid in t.rows && t.rows[sid].revoked && Look(t, sid, CHECK_FINE) == Judged(Active)
  {
    hide Play, Look, Apply;
    var sid := w.calls[1].session;
    var out, late := [Meanwhile(LogoutEvent(sid, user, Done, true))], [Then(1, Done), Then(1, Done)];
    PlayAppend(w, out, late);
    PlayFour(w, out);
    var v := Play(w, out);
    LogoutRevokesRow(w.s, sid, user);
    var events := MarksLate(v, 1, sid);
    Finishes(v, 1);
  }

  /** The same with a refresh, which marks the session for a whole new life. */
  lemma RefreshOutlivesLogout(ttl: int, sid: SessionId, user: UserId, h: Hash, next: Hash)
    requires ttl >= 1000 && next != h
    ensures var t := Play(Start(ttl, 0),
                          [Meanwhile(LoginEvent(sid, user, h, Done, true)), Refreshing(1, h, REFRESH_FINE),
                           Update(1, next, Done)]
                          + ([Meanwhile(LogoutEvent(sid, user, Done, true))] + [Then(1, Done), Then(1, Done)])).s;
      sid in t.rows && t.rows[sid].revoked && Look(t, sid, CHECK_FINE) == Judged(Active)
  {
    hide Play, Seek, Look, Login;
    var w := Start(ttl, 0);
    var a := [Meanwhile(LoginEvent(sid, user, h, Done, true)), Refreshing(1, h, REFRESH_FINE), Update(1, next, Done)];
    PlayAppend(w, a, [Meanwhile(LogoutEvent(sid, user, Done, true))] + [Then(1, Done), Then(1, Done)]);
    PlayFour(w, a);
    FirstLogin(ttl, sid, user, h);
    MarksAfterLogout(Play(w, a), user);
  }

  lemma StartsWell(ttl: int, now: int)
    ensures var w := Start(ttl, now); Traced(w) && Once(w) && Counted(w) && Honest(w.s)
  {}
}
