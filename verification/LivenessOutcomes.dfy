/** What one submission leaves behind besides the session's row: its challenge, the judgement, and the
    cached copy of the session. And when a challenge is issued. */
module LivenessOutcomes {
  import opened Basics
  import opened Onboarding
  import opened LivenessProtocol
  import opened LivenessService
  import Checks = LivenessChecks

  // --- The challenge and the judgement ---

  /** Past the challenge. */
  predicate IsLate(q: Phase) { !q.Arriving? && !q.Checked? && !q.Holding? }

  lemma {:induction false} LateKeeps(s: Store, l: Local, i: Inputs, n: nat)
    requires IsLate(l.phase)
    ensures var t := Drive(s, l, i, n).0; t.challenges == s.challenges && t.judged == s.judged && t.issued == s.issued
    decreases n
  {
    hide Move;
    if n > 0 {
      LateMove(s, l, i);
      LateKeeps(Move(s, l, i).0, Move(s, l, i).1, i, n - 1);
    }
  }

  lemma LateMove(s: Store, l: Local, i: Inputs)
    requires IsLate(l.phase)
    ensures var (t, m) := Move(s, l, i);
      IsLate(m.phase) && t.challenges == s.challenges && t.judged == s.judged && t.issued == s.issued
  {}

  /** The provider is asked: everything before it is in order. */
  predicate Reaches(s: Store, sub: Checks.Submission, i: Inputs) {
    && i.consume == Done && sub.challenge in s.challenges
    && var c := s.challenges[sub.challenge];
    && c.session == sub.session && c.device == sub.device && c.nonce == sub.nonce && s.now <= c.expiresAt
    && i.signature && i.integrity == Some(true)
  }

  lemma FirstThree(s: Store, sub: Checks.Submission, i: Inputs, copy: Session)
    ensures var (t, m) := Drive(s, Local(sub, Checked(copy)), i, 2);
      && IsLate(m.phase) && t.issued == s.issued
      && t.challenges == (if i.consume == Refused then s.challenges else s.challenges - {sub.challenge})
      && t.judged == if Reaches(s, sub, i)
                     then s.judged + [Judgement(s.challenges[sub.challenge], sub,
                                                i.provider.Judged? && i.provider.verdict.Passed?)]
                     else s.judged
  {
    hide Drive, Judge;
    var l := Local(sub, Checked(copy));
    var (t, m) := Consume(s, l, i);
    DriveStep(s, l, i, 2);
    if m.phase.Holding? {
      DriveStep(t, m, i, 1);
      JudgedOnce(t, m, i);
      DriveNone(Judge(t, m, i).0, Judge(t, m, i).1, i);
    } else {
      DriveStep(t, m, i, 1);
      LateMove(t, m, i);
      DriveNone(Move(t, m, i).0, Move(t, m, i).1, i);
    }
  }

  lemma DriveNone(s: Store, l: Local, i: Inputs)
    ensures Drive(s, l, i, 0) == (s, l)
  {}

  lemma JudgedOnce(s: Store, l: Local, i: Inputs)
    requires l.phase.Holding?
    ensures var (t, m) := Judge(s, l, i);
      var c := l.phase.challenge;
      && IsLate(m.phase) && t.issued == s.issued && t.challenges == s.challenges
      && t.judged == if BoundTo(c, l.submission) && s.now <= c.expiresAt && i.signature && i.integrity == Some(true)
                     then s.judged + [Judgement(c, l.submission, i.provider.Judged? && i.provider.verdict.Passed?)]
                     else s.judged
  {}

  /** A submission that is let in uses its challenge up, whatever becomes of it afterwards, and no other
      does; it is judged, once, if and only if it answers a live challenge of its own in time, signed, from
      an accepted device. */
  lemma CallConsumes(s: Store, sub: Checks.Submission, i: Inputs)
    requires Synced(s, sub.session)
    ensures var t := Call(s, sub, i).0;
      && t.challenges == (if Admitted(s, sub, i) && i.consume != Refused then s.challenges - {sub.challenge}
                          else s.challenges)
      && t.judged == if Admitted(s, sub, i) && Reaches(s, sub, i)
                     then s.judged + [Judgement(s.challenges[sub.challenge], sub,
                                                i.provider.Judged? && i.provider.verdict.Passed?)]
                     else s.judged
  {
    hide Drive, Arrive, Admitted;
    var l := Local(sub, Arriving);
    DriveStep(s, l, i, 7);
    Arrives(s, sub, i);
    var (t, m) := Arrive(s, l, i);
    if Admitted(s, sub, i) {
      DriveSplits(t, m, i, 2, 4);
      FirstThree(t, sub, i, s.rows[sub.session]);
      var (u, o) := Drive(t, m, i, 2);
      LateKeeps(u, o, i, 4);
    } else {
      LateKeeps(t, m, i, 6);
    }
  }

  // --- The cached copy ---

  /** The copy of the session is as good as its row, or the row was written and the copy was not. */
  ghost predicate Fresh(s: Store, t: Store, x: SessionId, i: Inputs) {
    && x in s.rows && x in t.rows && t.now == s.now && t.rows[x].expiresAt == s.rows[x].expiresAt
    && (t.rows != s.rows && i.update == Done && i.publish && s.now < s.rows[x].expiresAt ==> x in t.cache)
    && (Synced(t, x) || (t.rows != s.rows && !(i.update == Done && i.publish && s.now < s.rows[x].expiresAt)))
    && (forall y :: y != x ==> (y in t.cache <==> y in s.cache) && (y in s.cache ==> t.cache[y] == s.cache[y]))
  }

  lemma PassFresh(s: Store, l: Local, i: Inputs)
    requires l.phase.Passing? && Synced(s, l.submission.session) && l.phase.copy == s.rows[l.submission.session]
    ensures Fresh(s, Drive(s, l, i, 4).0, l.submission.session, i)
  {
    hide Drive;
    var (t, m) := StoreResult(s, l, i);
    DriveStep(s, l, i, 4);
    if i.stored {
      var (u, o) := Advance(t, m, i);
      DriveStep(t, m, i, 3);
      if i.update == Done {
        DriveStep(u, o, i, 2);
        DriveOver(Publish(u, o, i).0, Publish(u, o, i).1, i, 1);
      } else {
        DriveOver(u, o, i, 2);
      }
    } else {
      DriveOver(t, m, i, 3);
    }
  }

  lemma RouteFresh(s: Store, l: Local, i: Inputs, n: nat)
    requires l.phase.Routing? && Synced(s, l.submission.session) && n >= 2
    requires l.phase.copy == s.rows[l.submission.session]
    ensures Fresh(s, Drive(s, l, i, n).0, l.submission.session, i)
  {
    hide Drive;
    var (u, o) := Route(s, l, i);
    DriveStep(s, l, i, n);
    if o.phase.RoutePublishing? {
      DriveStep(u, o, i, n - 1);
      DriveOver(RoutePublish(u, o, i).0, RoutePublish(u, o, i).1, i, n - 2);
    } else {
      DriveOver(u, o, i, n - 1);
    }
  }

  lemma EscalateFresh(s: Store, l: Local, i: Inputs, n: nat)
    requires l.phase.Escalating? && Synced(s, l.submission.session) && n >= 3
    requires !Expired(s.rows[l.submission.session], s.now)
    ensures Fresh(s, Drive(s, l, i, n).0, l.submission.session, i)
  {
    hide Drive, Fresh;
    var (t, m) := Escalate(s, l, i);
    DriveStep(s, l, i, n);
    ResolveFresh(s, l.submission.session, i.second, i);
    if m.phase.Routing? {
      RouteFresh(t, m, i, n - 1);
      FreshTwice(s, t, Drive(t, m, i, n - 1).0, l.submission.session, i);
    } else {
      DriveOver(t, m, i, n - 1);
    }
  }

  lemma ResolveFresh(s: Store, x: SessionId, r: Reads, i: Inputs)
    requires Synced(s, x)
    ensures var (t, found) := Resolve(s, x, r);
      && t.rows == s.rows && Synced(t, x) && Fresh(s, t, x, i) && (found.Some? ==> found.value == s.rows[x])
  {}

  lemma FreshTwice(s: Store, t: Store, u: Store, x: SessionId, i: Inputs)
    requires t.rows == s.rows && Fresh(s, t, x, i) && Fresh(t, u, x, i)
    ensures Fresh(s, u, x, i)
  {}

  lemma FailFresh(s: Store, l: Local, i: Inputs)
    requires l.phase.Failing? && Synced(s, l.submission.session)
    requires !Expired(s.rows[l.submission.session], s.now)
    ensures Fresh(s, Drive(s, l, i, 4).0, l.submission.session, i)
  {
    hide Drive;
    DriveStep(s, l, i, 4);
    var (t, m) := Fail(s, l, i);
    if i.blocked {
      EscalateFresh(t, m, i, 3);
    } else {
      DriveOver(t, m, i, 3);
    }
  }

  /** After a call that found the cached copy current it is current again, and there, when the step was
      written and published to the cache in time; it falls behind only if the step was written and the
      cache was not. No other session's copy changes. */
  lemma CacheOutcome(s: Store, sub: Checks.Submission, i: Inputs)
    requires Synced(s, sub.session)
    ensures var x := sub.session;
      var t := Call(s, sub, i).0;
      && x in t.rows
      && (t.rows != s.rows && i.update == Done && i.publish && s.now < s.rows[x].expiresAt ==>
            x in t.cache && t.cache[x] == t.rows[x])
      && (x in t.cache && t.cache[x] != t.rows[x] ==>
            t.rows != s.rows && !(i.update == Done && i.publish && s.now < s.rows[x].expiresAt))
      && (forall y :: y != x ==> (y in t.cache <==> y in s.cache) && (y in s.cache ==> t.cache[y] == s.cache[y]))
  {
    hide Drive, Arrive, Convinces, RunsOut;
    var l := Local(sub, Arriving);
    DriveStep(s, l, i, 7);
    Arrives(s, sub, i);
    ArriveFresh(s, sub, i);
    var (t, m) := Arrive(s, l, i);
    if Admitted(s, sub, i) {
      DriveSplits(t, m, i, 2, 4);
      Judges(t, sub, i, s.rows[sub.session]);
      var (u, o) := Drive(t, m, i, 2);
      if o.phase.Passing? {
        PassFresh(u, o, i);
      } else if o.phase.Failing? {
        FailFresh(u, o, i);
      } else if o.phase.Escalating? {
        EscalateFresh(u, o, i, 4);
      } else {
        DriveOver(u, o, i, 4);
      }
    } else {
      DriveOver(t, m, i, 6);
    }
  }

  lemma ArriveFresh(s: Store, sub: Checks.Submission, i: Inputs)
    requires Synced(s, sub.session)
    ensures Fresh(s, Arrive(s, Local(sub, Arriving), i).0, sub.session, i)
  {
    hide Resolve, Fresh;
    ResolveFresh(s, sub.session, i.first, i);
  }

  // --- Issuing ---

  /** A challenge is issued, under a name that is new, if and only if the session is found, unexpired and
      at BIOMETRIC, the device is its own and the customer is not blocked; and nothing else changes. */
  lemma IssuedExactly(s: Store, x: SessionId, device: string, c: Checks.Challenge, r: Reads, allowed: bool)
    requires Synced(s, x) && c.session == x && c.device == device && c.id !in s.issued && c.id !in s.challenges
    ensures var t := IssueChallenge(s, x, device, c, r, allowed);
      && (c.id in t.challenges <==>
          && ((r.cache && x in s.cache) || r.find) && !Expired(s.rows[x], s.now)
          && s.rows[x].step == Biometric && device != "" && device == s.rows[x].device && allowed)
      && t.challenges == (if c.id in t.challenges then s.challenges[c.id := c] else s.challenges)
      && t.rows == s.rows && t.cache == s.cache && t.judged == s.judged
  {}
}
