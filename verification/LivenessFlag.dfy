/** The biometric flag of a session: what is behind a set flag, and exactly which steps lose one. */
module LivenessFlag {
  import opened Basics
  import opened Onboarding
  import opened LivenessProtocol
  import opened LivenessSafety
  import opened LivenessService
  import Checks = LivenessChecks

  // --- Behind a set flag stands a submission that passes the deterministic checks ---

  /** A provider passes no submission that the deterministic checks refuse: what the built-in
      provider and the development stub are proved to do. */
  predicate Sound(cfg: Checks.Config, w: World, e: Event) {
    e.Act? && e.ticket in w.locals && w.locals[e.ticket].phase.Holding?
    && e.inputs.provider.Judged? && e.inputs.provider.verdict.Passed? ==>
      Checks.Accepts(cfg, w.locals[e.ticket].phase.challenge, w.locals[e.ticket].submission)
  }

  predicate SoundRun(cfg: Checks.Config, w: World, events: seq<Event>)
    decreases |events|
  {
    events == [] || (Sound(cfg, w, events[0]) && SoundRun(cfg, Apply(w, events[0]), events[1..]))
  }

  predicate PassesAccepted(cfg: Checks.Config, judged: seq<Judgement>) {
    forall k {:trigger judged[k]} :: 0 <= k < |judged| && judged[k].passed ==>
      Checks.Accepts(cfg, judged[k].challenge, judged[k].submission)
  }

  /** A step adds at most one judgement: of the challenge its submission holds, passed only with a
      passing verdict. */
  predicate Judges(w: World, e: Event, judged: seq<Judgement>) {
    judged == w.store.judged
    || (e.Act? && e.ticket in w.locals && w.locals[e.ticket].phase.Holding?
        && var l := w.locals[e.ticket];
           var passed := e.inputs.provider.Judged? && e.inputs.provider.verdict.Passed?;
           judged == w.store.judged + [Judgement(l.phase.challenge, l.submission, passed)])
  }

  lemma MoveJudges(w: World, e: Event)
    requires e.Act? && e.ticket in w.locals
    ensures Judges(w, e, Move(w.store, w.locals[e.ticket], e.inputs).0.judged)
  {}

  lemma StepJudges(w: World, e: Event)
    ensures Judges(w, e, Apply(w, e).store.judged)
  {
    hide Move;
    if e.Act? && e.ticket in w.locals {
      MoveJudges(w, e);
    }
  }

  lemma {:induction false} PassesAreAccepted(cfg: Checks.Config, w: World, events: seq<Event>)
    requires PassesAccepted(cfg, w.store.judged) && SoundRun(cfg, w, events)
    ensures PassesAccepted(cfg, Run(w, events).store.judged)
    decreases |events|
  {
    hide Apply;
    if events != [] {
      StepJudges(w, events[0]);
      PassesAreAccepted(cfg, Apply(w, events[0]), events[1..]);
    }
  }

  /** In every run, behind a set flag stands a submission for that session from its device that
      was judged and passed, is bound to a challenge issued to them, shows its actions in order, is
      timed as demanded and repeats no picture. */
  lemma VerifiedByASubmission(cfg: Checks.Config, now: int, events: seq<Event>, x: SessionId)
    requires SoundRun(cfg, Initial(now), events)
    requires x in Run(Initial(now), events).store.rows && Run(Initial(now), events).store.rows[x].biometric
    ensures var s := Run(Initial(now), events).store;
      exists j :: j in s.judged && j.passed && Spent(s, j.challenge) && Checks.Accepts(cfg, j.challenge, j.submission)
                  && j.challenge.session == x && j.challenge.device == s.rows[x].device
  {
    hide Run, Initial;
    VerifiedOnlyByAPass(now, events, x);
    InitialIsEmpty(now);
    PassesAreAccepted(cfg, Initial(now), events);
    var s := Run(Initial(now), events).store;
    var k :| && 0 <= k < |s.judged| && s.judged[k].passed && Spent(s, s.judged[k].challenge)
             && s.judged[k].challenge.session == x && s.judged[k].challenge.device == s.rows[x].device;
    assert s.judged[k] in s.judged;
  }

  lemma InitialIsEmpty(now: int)
    ensures Initial(now).store.judged == []
  {}

  // --- Losing a flag, exactly ---

  /** The session whose row a step writes, and the copy it writes. */
  function Writes(w: World, e: Event): Option<(SessionId, Session)> {
    match e
    case Act(k, i) =>
      if k !in w.locals || i.update == Refused || w.locals[k].submission.session !in w.store.rows then None
      else
        (match w.locals[k].phase
         case Advancing(copy) => Some((w.locals[k].submission.session, copy))
         case Routing(copy) => Some((w.locals[k].submission.session, copy))
         case _ => None)
    case OtherService(x, _, _, fromCache, _) =>
      if x !in w.store.rows then None
      else Some((x, if fromCache && x in w.store.cache then w.store.cache[x] else w.store.rows[x]))
    case _ => None
  }

  predicate Flagged(w: World, x: SessionId) { x in w.store.rows && w.store.rows[x].biometric }

  /** A step writes a copy without the flag. */
  predicate Unflags(w: World, e: Event, x: SessionId) {
    Writes(w, e).Some? && Writes(w, e).value.0 == x && !Writes(w, e).value.1.biometric
  }

  lemma FlagStep(w: World, e: Event, x: SessionId)
    requires Flagged(w, x)
    ensures Flagged(Apply(w, e), x) <==> !Unflags(w, e, x)
  {
    hide Move;
    if e.Act? && e.ticket in w.locals {
      MoveFlags(w.store, w.locals[e.ticket], e.inputs, x);
    }
  }

  lemma MoveFlags(s: Store, l: Local, i: Inputs, x: SessionId)
    requires x in s.rows
    ensures var t := Move(s, l, i).0;
      && x in t.rows
      && t.rows[x].biometric ==
         if (l.phase.Advancing? || l.phase.Routing?) && l.submission.session == x && i.update != Refused
         then l.phase.copy.biometric else s.rows[x].biometric
  {
    if !l.phase.Advancing? && !l.phase.Routing? {
      hide Move;
      CacheLeavesRows(s, l, i);
    }
  }

  lemma CacheLeavesRows(s: Store, l: Local, i: Inputs)
    requires !l.phase.Advancing? && !l.phase.Routing?
    ensures Move(s, l, i).0.rows == s.rows
  {}

  /** In every reachable state a set flag is lost if and only if the step is an escalation whose
      update takes effect with a copy from before the pass, or another service's, working on
      such a copy from the cache. */
  lemma FlagLostExactly(w: World, e: Event, x: SessionId)
    requires Inv(w) && Flagged(w, x)
    ensures !Flagged(Apply(w, e), x) <==>
            || (e.Act? && e.ticket in w.locals && w.locals[e.ticket].phase.Routing?
                && w.locals[e.ticket].submission.session == x && e.inputs.update != Refused
                && !w.locals[e.ticket].phase.copy.biometric)
            || (e.OtherService? && e.session == x && e.fromCache && x in w.store.cache && !w.store.cache[x].biometric)
  {
    hide Apply, StoreOk;
    FlagStep(w, e, x);
    if e.Act? && e.ticket in w.locals {
      assert LocalOk(w.store, w.locals[e.ticket]);
    }
  }

  ghost predicate StaysFlagged(w: World, events: seq<Event>, x: SessionId)
    decreases |events|
  {
    Flagged(w, x) && (events == [] || StaysFlagged(Apply(w, events[0]), events[1..], x))
  }

  ghost predicate NeverUnflags(w: World, events: seq<Event>, x: SessionId)
    decreases |events|
  {
    events == [] || (!Unflags(w, events[0], x) && NeverUnflags(Apply(w, events[0]), events[1..], x))
  }

  /** Over a run a set flag stays set throughout if and only if no update writes a copy without
      it. */
  lemma {:induction false} FlagSurvivesExactly(w: World, events: seq<Event>, x: SessionId)
    requires Flagged(w, x)
    ensures StaysFlagged(w, events, x) <==> NeverUnflags(w, events, x)
    decreases |events|
  {
    hide Apply, Unflags, Flagged;
    if events != [] {
      FlagStep(w, events[0], x);
      if !Unflags(w, events[0], x) {
        FlagSurvivesExactly(Apply(w, events[0]), events[1..], x);
      }
    }
  }

  // --- A run that loses one ---

  const ALL_READ := Reads(true, true, true)

  /** Everything answers; the pass is not written to the cache. */
  function Convinced(v: Checks.Verdict): Inputs {
    Inputs(ALL_READ, true, Done, true, Some(true), Judged(v), true, Done, false, false, ALL_READ)
  }

  /** Everything answers, and self-service is over. */
  function LastAttempt(): Inputs {
    Inputs(ALL_READ, true, Done, true, Some(true), NoVerdict, true, Done, true, true, ALL_READ)
  }

  /** A challenge is issued; a submission caches the session and passes, but the cached copy is not
      replaced; and the same submission, sent again, is the last attempt allowed. */
  function SentTwice(x: SessionId, row: Session, c: Checks.Challenge, sub: Checks.Submission, v: Checks.Verdict)
    : seq<Event>
  {
    [Create(x, row), Issue(x, row.device, c, ALL_READ, true), Submit(1, sub)]
    + seq(7, _ => Act(1, Convinced(v)))
    + [Submit(2, sub)]
    + seq(7, _ => Act(2, LastAttempt()))
  }

  predicate Fits(now: int, x: SessionId, row: Session, c: Checks.Challenge, sub: Checks.Submission) {
    && row.step == Biometric && !row.biometric && row.device != "" && now < row.expiresAt
    && c.session == x && c.device == row.device && now <= c.expiresAt
    && sub.session == x && sub.device == row.device && sub.challenge == c.id && sub.nonce == c.nonce
  }

  function Issued(now: int, x: SessionId, row: Session, c: Checks.Challenge): Store {
    Store(now, map[x := row], map[], map[c.id := c], map[c.id := c], [])
  }

  lemma IssueRuns(now: int, x: SessionId, row: Session, c: Checks.Challenge, sub: Checks.Submission)
    requires Fits(now, x, row, c, sub)
    ensures Run(Initial(now), [Create(x, row), Issue(x, row.device, c, ALL_READ, true), Submit(1, sub)]) ==
            World(Issued(now, x, row, c), map[1 := Local(sub, Arriving)])
  {
    hide Run;
    var w, es := Initial(now), [Create(x, row), Issue(x, row.device, c, ALL_READ, true), Submit(1, sub)];
    RunAppend(w, es[..1], es[1..]);
    RunAppend(Apply(w, es[0]), es[1..2], es[2..]);
    assert es == es[..1] + es[1..] && es[1..] == es[1..2] + es[2..];
    assert es[..1] == [es[0]] && es[1..2] == [es[1]] && es[2..] == [es[2]];
    RunOne(w, es[0]);
    RunOne(Apply(w, es[0]), es[1]);
    RunOne(Apply(Apply(w, es[0]), es[1]), es[2]);
  }

  lemma RunOne(w: World, e: Event)
    ensures Run(w, [e]) == Apply(w, e)
  {
    hide Apply;
    assert [e][1..] == [];
  }

  lemma {:induction false} RunAppend(w: World, first: seq<Event>, rest: seq<Event>)
    ensures Run(w, first + rest) == Run(Run(w, first), rest)
    decreases |first|
  {
    hide Apply;
    if first == [] {
      assert first + rest == rest;
    } else {
      assert (first + rest)[1..] == first[1..] + rest;
      RunAppend(Apply(w, first[0]), first[1..], rest);
    }
  }

  lemma PassUncached(now: int, x: SessionId, row: Session, c: Checks.Challenge, sub: Checks.Submission,
                     v: Checks.Verdict)
    requires Fits(now, x, row, c, sub) && v.Passed?
    ensures var t := Call(Issued(now, x, row, c), sub, Convinced(v)).0;
      && t.rows == map[x := row.(step := VideoCall, biometric := true)]
      && t.cache == map[x := row] && t.challenges == map[] && t.now == now
  {
    hide Drive;
    var s, i := Issued(now, x, row, c), Convinced(v);
    var s1 := s.(cache := map[x := row]);
    var s2 := s1.(challenges := map[]);
    var s3 := s2.(judged := s2.judged + [Judgement(c, sub, true)]);
    var copy := row.(biometric := true);
    var s5 := UpdateStep(s3, x, VideoCall, copy, Done);
    DriveStep(s, Local(sub, Arriving), i, 7);
    DriveStep(s1, Local(sub, Checked(row)), i, 6);
    assert Consume(s1, Local(sub, Checked(row)), i) == (s2, Local(sub, Holding(row, c)));
    DriveStep(s2, Local(sub, Holding(row, c)), i, 5);
    assert Judge(s2, Local(sub, Holding(row, c)), i) == (s3, Local(sub, Passing(row)));
    DriveStep(s3, Local(sub, Passing(row)), i, 4);
    DriveStep(s3, Local(sub, Advancing(copy)), i, 3);
    assert LivenessProtocol.Advance(s3, Local(sub, Advancing(copy)), i) ==
           (s5, Local(sub, Publishing(copy.(step := VideoCall))));
    DriveStep(s5, Local(sub, Publishing(copy.(step := VideoCall))), i, 2);
    assert Publish(s5, Local(sub, Publishing(copy.(step := VideoCall))), i) == (s5, Local(sub, Over(Accepted)));
    DriveOver(s5, Local(sub, Over(Accepted)), i, 1);
  }

  lemma LastAttemptUnflags(s: Store, sub: Checks.Submission)
    requires sub.session in s.rows && sub.session in s.cache && sub.challenge !in s.challenges
    requires var copy := s.cache[sub.session];
      copy.step == Biometric && !copy.biometric && copy.device == sub.device != "" && !Expired(copy, s.now)
    ensures var t := Call(s, sub, LastAttempt()).0; sub.session in t.rows && !t.rows[sub.session].biometric
  {
    hide Drive;
    var i, copy := LastAttempt(), s.cache[sub.session];
    var s2 := s.(challenges := s.challenges - {sub.challenge});
    var s5 := UpdateStep(s2, sub.session, VideoCall, copy, Done);
    var l5 := Local(sub, RoutePublishing(copy.(step := VideoCall)));
    DriveStep(s, Local(sub, Arriving), i, 7);
    DriveStep(s, Local(sub, Checked(copy)), i, 6);
    DriveStep(s2, Local(sub, Failing), i, 5);
    DriveStep(s2, Local(sub, Escalating), i, 4);
    DriveStep(s2, Local(sub, Routing(copy)), i, 3);
    DriveStep(s5, l5, i, 2);
    DriveOver(RoutePublish(s5, l5, i).0, RoutePublish(s5, l5, i).1, i, 1);
  }

  /** The pass sets the flag, and the escalation that follows writes the cached copy from before
      it. */
  lemma StaleCopyLosesTheFlag(now: int, x: SessionId, row: Session, c: Checks.Challenge, sub: Checks.Submission,
                              v: Checks.Verdict)
    requires Fits(now, x, row, c, sub) && v.Passed?
    ensures Flagged(Run(Initial(now), SentTwice(x, row, c, sub, v)[..10]), x)
    ensures var w := Run(Initial(now), SentTwice(x, row, c, sub, v)); x in w.store.rows && !Flagged(w, x)
  {
    hide Run, Call, Convinced, LastAttempt;
    var w := Initial(now);
    var a := [Create(x, row), Issue(x, row.device, c, ALL_READ, true), Submit(1, sub)];
    var b, d := seq(7, _ => Act(1, Convinced(v))), seq(7, _ => Act(2, LastAttempt()));
    assert SentTwice(x, row, c, sub, v)[..10] == a + b;
    RunAppend(w, a, b);
    RunAppend(w, a + b, [Submit(2, sub)]);
    RunAppend(w, a + b + [Submit(2, sub)], d);
    IssueRuns(now, x, row, c, sub);
    PassUncached(now, x, row, c, sub, v);
    CallIsARun(Run(w, a), 1, Convinced(v));
    var w10 := Run(w, a + b);
    RunOne(w10, Submit(2, sub));
    LastAttemptUnflags(w10.store, sub);
    CallIsARun(Run(w, a + b + [Submit(2, sub)]), 2, LastAttempt());
  }

  lemma CallIsARun(w: World, k: Ticket, i: Inputs)
    requires k in w.locals && w.locals[k].phase.Arriving?
    ensures var t := Call(w.store, w.locals[k].submission, i);
      Run(w, seq(7, _ => Act(k, i))) == World(t.0, w.locals[k := t.1])
  {
    DriveIsARun(w, k, i, 7);
  }
}
