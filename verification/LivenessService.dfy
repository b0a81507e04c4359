/** ProcessBiometric as the service runs it: one submission, from arrival to its answer. */
module LivenessService {
  import opened Basics
  import opened Onboarding
  import opened LivenessProtocol
  import Checks = LivenessChecks

  function Drive(s: Store, l: Local, i: Inputs, n: nat): (Store, Local)
    decreases n
  {
    if n == 0 then (s, l)
    else
      var (t, m) := Move(s, l, i);
      Drive(t, m, i, n - 1)
  }

  /** No submission has more than seven store calls. */
  function Call(s: Store, submission: Checks.Submission, i: Inputs): (Store, Local) {
    Drive(s, Local(submission, Arriving), i, 7)
  }

  lemma DriveStep(s: Store, l: Local, i: Inputs, n: nat)
    requires n > 0
    ensures Drive(s, l, i, n) == Drive(Move(s, l, i).0, Move(s, l, i).1, i, n - 1)
  {}

  lemma {:induction false} DriveOver(s: Store, l: Local, i: Inputs, n: nat)
    requires l.phase.Over?
    ensures Drive(s, l, i, n) == (s, l)
    decreases n
  {
    if n > 0 {
      DriveOver(s, l, i, n - 1);
    }
  }

  /** A call alone is a run of the protocol in which nobody else moves. */
  lemma {:induction false} DriveIsARun(w: World, k: Ticket, i: Inputs, n: nat)
    requires k in w.locals
    ensures var (t, m) := Drive(w.store, w.locals[k], i, n);
      Run(w, seq(n, _ => Act(k, i))) == World(t, w.locals[k := m])
    decreases n
  {
    var events := seq(n, _ => Act(k, i));
    if n == 0 {
      assert w.locals[k := w.locals[k]] == w.locals;
    } else {
      var (t, m) := Move(w.store, w.locals[k], i);
      var v := World(t, w.locals[k := m]);
      DriveIsARun(v, k, i, n - 1);
      assert events[1..] == seq(n - 1, _ => Act(k, i));
      var m' := Drive(t, m, i, n - 1).1;
      assert v.locals[k := m'] == w.locals[k := m'];
    }
  }

  // --- What one call does to the session ---

  /** The cached copy of the session, if there is one, is the row. */
  predicate Synced(s: Store, x: SessionId) {
    x in s.rows && (x in s.cache ==> s.cache[x] == s.rows[x])
  }

  predicate Admitted(s: Store, sub: Checks.Submission, i: Inputs)
    requires sub.session in s.rows
  {
    var row := s.rows[sub.session];
    && ((i.first.cache && sub.session in s.cache) || i.first.find) && !Expired(row, s.now)
    && row.step == Biometric && sub.device != "" && sub.device == row.device && i.allowed
  }

  /** A challenge of this session, device and nonce, in time, signed, on an accepted device, and
      judged to show the enrolled person alive. */
  predicate Convinces(s: Store, sub: Checks.Submission, i: Inputs) {
    && i.consume == Done && sub.challenge in s.challenges
    && BoundTo(s.challenges[sub.challenge], sub) && s.now <= s.challenges[sub.challenge].expiresAt
    && i.signature && i.integrity == Some(true) && i.provider.Judged? && i.provider.verdict.Passed?
  }

  /** It ends in the refusal that counts against the customer, and that is the last one allowed. */
  predicate RunsOut(s: Store, sub: Checks.Submission, i: Inputs) {
    && i.consume == Done && i.blocked && !Convinces(s, sub, i)
    && !(sub.challenge in s.challenges && BoundTo(s.challenges[sub.challenge], sub)
         && s.now <= s.challenges[sub.challenge].expiresAt && i.signature && i.integrity.None?)
  }

  lemma Arrives(s: Store, sub: Checks.Submission, i: Inputs)
    requires Synced(s, sub.session)
    ensures var x := sub.session;
      var (t, m) := Arrive(s, Local(sub, Arriving), i);
      && t.rows == s.rows && t.challenges == s.challenges && t.now == s.now && t.judged == s.judged && Synced(t, x)
      && m == Local(sub, if Admitted(s, sub, i) then Checked(s.rows[x]) else Over(Rejected))
  {}

  lemma Judges(s: Store, sub: Checks.Submission, i: Inputs, copy: Session)
    ensures var l := Local(sub, Checked(copy));
      var (t, m) := Drive(s, l, i, 2);
      && t.rows == s.rows && t.cache == s.cache && t.now == s.now
      && (Convinces(s, sub, i) ==> m.phase == Passing(copy))
      && (m.phase.Passing? ==> Convinces(s, sub, i))
      && (m.phase.Passing? || m.phase.Failing? || m.phase == Over(Rejected) || m.phase == Escalating)
      && (RunsOut(s, sub, i) <==> i.blocked && (m.phase == Escalating || m.phase.Failing?))
      && m.submission == sub && (m.phase.Escalating? ==> i.blocked)
  {
    var l := Local(sub, Checked(copy));
    var (t, m) := Consume(s, l, i);
    DriveStep(s, l, i, 2);
    DriveStep(t, m, i, 1);
  }

  lemma {:induction false} DriveSplits(s: Store, l: Local, i: Inputs, a: nat, b: nat)
    ensures Drive(s, l, i, a + b) == Drive(Drive(s, l, i, a).0, Drive(s, l, i, a).1, i, b)
    decreases a
  {
    hide Move;
    if a > 0 {
      DriveStep(s, l, i, a + b);
      DriveStep(s, l, i, a);
      DriveSplits(Move(s, l, i).0, Move(s, l, i).1, i, a - 1, b);
    }
  }

  lemma PassTail(s: Store, l: Local, i: Inputs)
    requires l.phase.Passing? && l.submission.session in s.rows
    ensures var x := l.submission.session;
      var copy := l.phase.copy.(biometric := true);
      var (t, m) := Drive(s, l, i, 4);
      && t.rows == (if i.stored then UpdateStep(s, x, VideoCall, copy, i.update).rows else s.rows)
      && (m.phase == Over(Accepted) <==> i.stored && i.update == Done)
  {
    hide Drive, UpdateStep;
    var (t, m) := StoreResult(s, l, i);
    DriveStep(s, l, i, 4);
    if i.stored {
      var (u, o) := Advance(t, m, i);
      DriveStep(t, m, i, 3);
      if i.update == Done {
        DriveStep(u, o, i, 2);
        DriveOver(Publish(u, o, i).0, Publish(u, o, i).1, i, 1);
      } else {
        DriveOver(u, o, i, 2);
      }
    } else {
      DriveOver(t, m, i, 3);
    }
  }

  lemma EscalateTail(s: Store, l: Local, i: Inputs, n: nat)
    requires l.phase.Escalating? && Synced(s, l.submission.session) && n >= 3
    requires !Expired(s.rows[l.submission.session], s.now)
    ensures var x := l.submission.session;
      var (t, m) := Drive(s, l, i, n);
      && (t.rows == s.rows || (i.update != Refused && t.rows == s.rows[x := s.rows[x].(step := VideoCall)]))
      && (i.second.find && i.update != Refused ==> t.rows == s.rows[x := s.rows[x].(step := VideoCall)])
      && m.phase == Over(Rejected)
  {
    hide Drive;
    var x := l.submission.session;
    var (t, m) := Escalate(s, l, i);
    DriveStep(s, l, i, n);
    if m.phase.Routing? {
      var (u, o) := Route(t, m, i);
      DriveStep(t, m, i, n - 1);
      if o.phase.RoutePublishing? {
        DriveStep(u, o, i, n - 2);
        DriveOver(RoutePublish(u, o, i).0, RoutePublish(u, o, i).1, i, n - 3);
      } else {
        DriveOver(u, o, i, n - 2);
      }
    } else {
      DriveOver(t, m, i, n - 1);
    }
  }

  lemma FailTail(s: Store, l: Local, i: Inputs)
    requires l.phase.Failing? && Synced(s, l.submission.session)
    requires !Expired(s.rows[l.submission.session], s.now)
    ensures var x := l.submission.session;
      var (t, m) := Drive(s, l, i, 4);
      && (t.rows == s.rows
          || (i.blocked && i.update != Refused && t.rows == s.rows[x := s.rows[x].(step := VideoCall)]))
      && (i.blocked && i.second.find && i.update != Refused ==> t.rows == s.rows[x := s.rows[x].(step := VideoCall)])
      && m.phase == Over(Rejected)
  {
    hide Drive;
    DriveStep(s, l, i, 4);
    var (t, m) := Fail(s, l, i);
    if i.blocked {
      EscalateTail(t, m, i, 3);
    } else {
      DriveOver(t, m, i, 3);
    }
  }

  /** What a call does to the sessions, when the cached copy is current: a convincing submission
      sets the flag and moves the step, a last refusal moves the step and leaves the flag, and
      nothing else changes anything. A provider that errs, gives no verdict or cannot judge, and
      a device that integrity policy refuses, never convince. */
  lemma CallOutcome(s: Store, sub: Checks.Submission, i: Inputs)
    requires Synced(s, sub.session)
    ensures var x := sub.session;
      var row := s.rows[x];
      var (t, m) := Call(s, sub, i);
      var passed := s.rows[x := row.(step := VideoCall, biometric := true)];
      var routed := s.rows[x := row.(step := VideoCall)];
      && (m.phase == Over(Accepted) <==> Admitted(s, sub, i) && Convinces(s, sub, i) && i.stored && i.update == Done)
      && (Admitted(s, sub, i) && Convinces(s, sub, i) && i.stored && i.update != Refused ==> t.rows == passed)
      && (Admitted(s, sub, i) && RunsOut(s, sub, i) && i.second.find && i.update != Refused ==> t.rows == routed)
      && (t.rows == s.rows
          || (t.rows == passed && Admitted(s, sub, i) && Convinces(s, sub, i) && i.stored && i.update != Refused)
          || (t.rows == routed && Admitted(s, sub, i) && RunsOut(s, sub, i) && i.update != Refused))
  {
    hide Drive, Arrive, Convinces, RunsOut;
    var l := Local(sub, Arriving);
    DriveStep(s, l, i, 7);
    Arrives(s, sub, i);
    var (t, m) := Arrive(s, l, i);
    if Admitted(s, sub, i) {
      DriveSplits(t, m, i, 2, 4);
      Judges(t, sub, i, s.rows[sub.session]);
      SameQuestions(s, t, sub, i);
      var (u, o) := Drive(t, m, i, 2);
      if o.phase.Passing? {
        PassTail(u, o, i);
      } else if o.phase.Failing? {
        FailTail(u, o, i);
      } else if o.phase.Escalating? {
        EscalateTail(u, o, i, 4);
      } else {
        DriveOver(u, o, i, 4);
      }
    } else {
      DriveOver(t, m, i, 6);
    }
  }

  lemma SameQuestions(s: Store, t: Store, sub: Checks.Submission, i: Inputs)
    requires t.challenges == s.challenges && t.now == s.now
    ensures Convinces(t, sub, i) == Convinces(s, sub, i) && RunsOut(t, sub, i) == RunsOut(s, sub, i)
  {}

  // --- The service ---

  class Service {
    var now: int
    var rows: map<SessionId, Session>
    var cache: map<SessionId, Session>
    var challenges: map<ChallengeId, Checks.Challenge>
    ghost var issued: map<ChallengeId, Checks.Challenge>
    ghost var judged: seq<Judgement>

    constructor (now: int)
      ensures View() == Initial(now).store
    {
      this.now, rows, cache, challenges, issued, judged := now, map[], map[], map[], map[], [];
    }

    ghost function View(): Store
      reads this
    {
      Store(now, rows, cache, challenges, issued, judged)
    }

    /** The cached copy unless there is none; the row is put back into the cache. */
    method ResolveSession(x: SessionId, r: Reads) returns (found: Option<Session>)
      modifies this`cache
      ensures (View(), found) == Resolve(old(View()), x, r)
    {
      if r.cache && x in cache {
        return if cache[x].expiresAt < now then None else Some(cache[x]);
      }
      if !r.find || x !in rows {
        return None;
      }
      if rows[x].expiresAt < now {
        return None;
      }
      found := Some(rows[x]);
      if r.backfill {
        StoreInCache(x, rows[x]);
      }
    }

    method StoreInCache(x: SessionId, copy: Session)
      modifies this`cache
      ensures View() == CacheStore(old(View()), x, copy)
    {
      if now < copy.expiresAt {
        cache := cache[x := copy];
      }
    }

    method WriteStep(x: SessionId, step: Step, copy: Session, o: Outcome) returns (ok: bool)
      modifies this`rows
      ensures View() == LivenessProtocol.UpdateStep(old(View()), x, step, copy, o)
      ensures ok <==> Updated(old(View()), x, o)
    {
      if o == Refused || x !in rows {
        return false;
      }
      rows := rows[x := rows[x].(step := step, biometric := copy.biometric, videoCall := copy.videoCall,
                                 flags := copy.flags)];
      return o == Done;
    }

    /** GETDEL. */
    method ConsumeChallenge(id: ChallengeId, o: Outcome) returns (ok: bool, found: Option<Checks.Challenge>)
      modifies this`challenges
      ensures ok <==> o == Done
      ensures found == if id in old(challenges) then Some(old(challenges)[id]) else None
      ensures challenges == if o == Refused then old(challenges) else old(challenges) - {id}
    {
      found := if id in challenges then Some(challenges[id]) else None;
      if o != Refused {
        challenges := challenges - {id};
      }
      return o == Done, found;
    }

    /** One refused attempt; the last one allowed hands the customer to a video call. */
    method RefuseVerdict(sub: Checks.Submission, i: Inputs)
      modifies this`rows, this`cache
      ensures View() == Drive(old(View()), Local(sub, Failing), i, 4).0
      ensures Drive(old(View()), Local(sub, Failing), i, 4).1 == Local(sub, Over(Rejected))
    {
      hide Drive;
      ghost var l := Local(sub, Failing);
      DriveStep(View(), l, i, 4);
      if !i.blocked {
        DriveOver(View(), l.(phase := Over(Rejected)), i, 3);
        return;
      }
      l := l.(phase := Escalating);
      DriveStep(View(), l, i, 3);
      var found := ResolveSession(sub.session, i.second);
      if found.None? {
        DriveOver(View(), l.(phase := Over(Rejected)), i, 2);
        return;
      }
      l := l.(phase := Routing(found.value));
      DriveStep(View(), l, i, 2);
      var ok := WriteStep(sub.session, VideoCall, found.value, i.update);
      if !ok {
        DriveOver(View(), l.(phase := Over(Rejected)), i, 1);
        return;
      }
      l := l.(phase := RoutePublishing(found.value.(step := VideoCall)));
      DriveStep(View(), l, i, 1);
      if i.publish {
        StoreInCache(sub.session, found.value.(step := VideoCall));
      }
      DriveOver(View(), l.(phase := Over(Rejected)), i, 0);
    }

    method RecordPass(session: Session, sub: Checks.Submission, i: Inputs) returns (answer: Answer)
      modifies this`rows, this`cache
      ensures (View(), Local(sub, Over(answer))) == Drive(old(View()), Local(sub, Passing(session)), i, 4)
    {
      hide Drive;
      ghost var l := Local(sub, Passing(session));
      DriveStep(View(), l, i, 4);
      if !i.stored {
        DriveOver(View(), l.(phase := Over(Rejected)), i, 3);
        return Rejected;
      }
      var completed := session.(biometric := true);
      l := l.(phase := Advancing(completed));
      DriveStep(View(), l, i, 3);
      var ok := WriteStep(sub.session, VideoCall, completed, i.update);
      if !ok {
        DriveOver(View(), l.(phase := Over(Rejected)), i, 2);
        return Rejected;
      }
      l := l.(phase := Publishing(completed.(step := VideoCall)));
      DriveStep(View(), l, i, 2);
      if i.publish {
        StoreInCache(sub.session, completed.(step := VideoCall));
      }
      DriveOver(View(), l.(phase := Over(Accepted)), i, 1);
      return Accepted;
    }

    method ProcessBiometric(sub: Checks.Submission, i: Inputs) returns (answer: Answer)
      modifies this
      ensures (View(), Local(sub, Over(answer))) == Call(old(View()), sub, i)
    {
      hide Drive, Resolve, CacheStore;
      ghost var l := Local(sub, Arriving);
      DriveStep(View(), l, i, 7);
      var found := ResolveSession(sub.session, i.first);
      if found.None? || found.value.step != Biometric || sub.device == "" || sub.device != found.value.device
         || !i.allowed
      {
        DriveOver(View(), l.(phase := Over(Rejected)), i, 6);
        return Rejected;
      }
      var session := found.value;
      l := l.(phase := Checked(session));
      DriveStep(View(), l, i, 6);
      var ok, challenge := ConsumeChallenge(sub.challenge, i.consume);
      if !ok {
        DriveOver(View(), l.(phase := Over(Rejected)), i, 5);
        return Rejected;
      }
      if challenge.None? {
        l := l.(phase := Failing);
        RefuseEarly(View(), l, i);
        RefuseVerdict(sub, i);
        return Rejected;
      }
      var c := challenge.value;
      l := l.(phase := Holding(session, c));
      DriveStep(View(), l, i, 5);
      if c.session != sub.session || c.device != sub.device || c.nonce != sub.nonce || c.expiresAt < now
          || !i.signature {
        RefuseVerdict(sub, i);
        return Rejected;
      }
      if i.integrity.None? {
        DriveOver(View(), l.(phase := Over(Rejected)), i, 4);
        return Rejected;
      }
      if !i.integrity.value {
        RefuseVerdict(sub, i);
        return Rejected;
      }
      var passed := i.provider.Judged? && i.provider.verdict.Passed?;
      judged := judged + [Judgement(c, sub, passed)];
      if !passed {
        RefuseVerdict(sub, i);
        return Rejected;
      }
      answer := RecordPass(session, sub, i);
    }
  }

  /** A refusal without a challenge has a step to spare. */
  lemma RefuseEarly(s: Store, l: Local, i: Inputs)
    requires l.phase.Failing?
    ensures Drive(s, l, i, 5) == Drive(s, l, i, 4)
  {
    DriveSplits(s, l, i, 4, 1);
    DriveOver(Drive(s, l, i, 4).0, Drive(s, l, i, 4).1, i, 1);
  }
}
