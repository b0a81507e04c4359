/** The step a submission leaves its session at: exactly when it takes the session back. */
module LivenessSteps {
  import opened Basics
  import opened Onboarding
  import opened LivenessProtocol
  import opened LivenessService
  import opened LivenessFlag
  import Checks = LivenessChecks

  function StepOf(s: Store, x: SessionId): nat
    requires x in s.rows
  {
    StepIndex(s.rows[x].step)
  }

  lemma MoveSteps(s: Store, l: Local, i: Inputs, x: SessionId)
    requires x in s.rows
    ensures var t := Move(s, l, i).0;
      && x in t.rows
      && t.rows[x].step ==
         if (l.phase.Advancing? || l.phase.Routing?) && l.submission.session == x && i.update != Refused
         then VideoCall else s.rows[x].step
  {
    if !l.phase.Advancing? && !l.phase.Routing? {
      hide Move;
      CacheLeavesRows(s, l, i);
    }
  }

  /** Neither the pass nor the escalation looks at the step it overwrites: a submission takes a session
      back if and only if its update takes effect on a row that has gone past VIDEO_CALL. */
  lemma MovesBackExactly(w: World, k: Ticket, i: Inputs, x: SessionId)
    requires k in w.locals && x in w.store.rows
    ensures var v := Apply(w, Act(k, i));
      && x in v.store.rows
      && (StepOf(v.store, x) < StepOf(w.store, x) <==>
          (w.locals[k].phase.Advancing? || w.locals[k].phase.Routing?) && w.locals[k].submission.session == x
          && i.update != Refused && StepIndex(VideoCall) < StepOf(w.store, x))
  {
    hide Move;
    MoveSteps(w.store, w.locals[k], i, x);
  }

  // --- A run in which it does ---

  /** No other service moves a session except along an admissible transition of its row. */
  ghost predicate KeepsOrder(w: World, e: Event) {
    e.OtherService? && e.session in w.store.rows ==> CanTransition(w.store.rows[e.session].step, e.step)
  }

  ghost predicate OrderedRun(w: World, events: seq<Event>)
    decreases |events|
  {
    events == [] || (KeepsOrder(w, events[0]) && OrderedRun(Apply(w, events[0]), events[1..]))
  }

  lemma {:induction false} OrderedAppend(w: World, first: seq<Event>, rest: seq<Event>)
    requires OrderedRun(w, first) && OrderedRun(Run(w, first), rest)
    ensures OrderedRun(w, first + rest)
    decreases |first|
  {
    hide Apply, KeepsOrder;
    if first == [] {
      assert first + rest == rest;
    } else {
      assert (first + rest)[1..] == first[1..] + rest;
      OrderedAppend(Apply(w, first[0]), first[1..], rest);
    }
  }

  lemma {:induction false} OthersAbsent(w: World, events: seq<Event>)
    requires forall e :: e in events ==> !e.OtherService?
    ensures OrderedRun(w, events)
    decreases |events|
  {
    hide Apply;
    if events != [] {
      OthersAbsent(Apply(w, events[0]), events[1..]);
    }
  }

  /** Other services take a session on, on its row, one step at a time. */
  function Walk(x: SessionId, here: nat, there: nat): seq<Event>
    requires here <= there < |STEP_ORDER|
    decreases there - here
  {
    if here == there then [] else [OtherService(x, STEP_ORDER[here + 1], {}, false, true)] + Walk(x, here + 1, there)
  }

  lemma {:induction false} Walks(w: World, x: SessionId, here: nat, there: nat)
    requires here <= there < |STEP_ORDER| && x in w.store.rows && StepOf(w.store, x) == here
    ensures OrderedRun(w, Walk(x, here, there))
    ensures var v := Run(w, Walk(x, here, there));
      && v.locals == w.locals && x in v.store.rows && StepOf(v.store, x) == there
    decreases there - here
  {
    hide CanTransition, OrderedRun;
    if here < there {
      var e := OtherService(x, STEP_ORDER[here + 1], {}, false, true);
      IndexOfStep(here + 1);
      TransitionsExactly(w.store.rows[x].step, e.step);
      Walks(Apply(w, e), x, here + 1, there);
      assert Walk(x, here, there)[1..] == Walk(x, here + 1, there);
      StartsOrdered(w, Walk(x, here, there));
    } else {
      StartsOrdered(w, []);
    }
  }

  lemma StartsOrdered(w: World, events: seq<Event>)
    ensures OrderedRun(w, events) <==>
            events == [] || (KeepsOrder(w, events[0]) && OrderedRun(Apply(w, events[0]), events[1..]))
  {}

  /** Between the judgement of a pass and its write the session goes on, step by step. */
  function Overtaken(x: SessionId, row: Session, c: Checks.Challenge, sub: Checks.Submission, v: Checks.Verdict,
                     later: Step): seq<Event>
    requires StepIndex(VideoCall) < StepIndex(later)
  {
    [Create(x, row), Issue(x, row.device, c, ALL_READ, true), Submit(1, sub)]
    + seq(4, _ => Act(1, Convinced(v)))
    + Walk(x, StepIndex(Biometric), StepIndex(later))
    + [Act(1, Convinced(v))]
  }

  lemma Judged4(now: int, x: SessionId, row: Session, c: Checks.Challenge, sub: Checks.Submission, v: Checks.Verdict)
    requires Fits(now, x, row, c, sub) && v.Passed?
    ensures var (t, m) := Drive(Issued(now, x, row, c), Local(sub, Arriving), Convinced(v), 4);
      && t.rows == map[x := row] && m == Local(sub, Advancing(row.(biometric := true)))
  {
    hide Drive;
    var s, i := Issued(now, x, row, c), Convinced(v);
    var s1 := s.(cache := map[x := row]);
    var s2 := s1.(challenges := map[]);
    var s3 := s2.(judged := s2.judged + [Judgement(c, sub, true)]);
    DriveStep(s, Local(sub, Arriving), i, 4);
    DriveStep(s1, Local(sub, Checked(row)), i, 3);
    assert Consume(s1, Local(sub, Checked(row)), i) == (s2, Local(sub, Holding(row, c)));
    DriveStep(s2, Local(sub, Holding(row, c)), i, 2);
    assert Judge(s2, Local(sub, Holding(row, c)), i) == (s3, Local(sub, Passing(row)));
    DriveStep(s3, Local(sub, Passing(row)), i, 1);
    DriveNone(s3, Local(sub, Advancing(row.(biometric := true))), i);
  }

  lemma DriveNone(s: Store, l: Local, i: Inputs)
    ensures Drive(s, l, i, 0) == (s, l)
  {}

  /** A run in which every call made succeeds, every other service keeps to the order of the steps,
      and a pass takes a session that has gone on back to VIDEO_CALL. */
  lemma LatePassMovesBack(now: int, x: SessionId, row: Session, c: Checks.Challenge, sub: Checks.Submission,
                          v: Checks.Verdict, later: Step)
    requires Fits(now, x, row, c, sub) && v.Passed? && StepIndex(VideoCall) < StepIndex(later)
    ensures var s := Run(Initial(now), Overtaken(x, row, c, sub, v, later)).store;
      x in s.rows && s.rows[x].step == VideoCall
    ensures OrderedRun(Initial(now), Overtaken(x, row, c, sub, v, later))
  {
    hide Run, Drive, Convinced, Move, Apply, OrderedRun, Walk;
    var w := Initial(now);
    var a := [Create(x, row), Issue(x, row.device, c, ALL_READ, true), Submit(1, sub)];
    var b, d, e := seq(4, _ => Act(1, Convinced(v))), Walk(x, StepIndex(Biometric), StepIndex(later)),
                   [Act(1, Convinced(v))];
    RunAppend(w, a + b + d, e);
    RunAppend(w, a + b, d);
    RunAppend(w, a, b);
    IssueRuns(now, x, row, c, sub);
    DriveIsARun(Run(w, a), 1, Convinced(v), 4);
    Judged4(now, x, row, c, sub, v);
    Walks(Run(w, a + b), x, StepIndex(Biometric), StepIndex(later));
    var w8 := Run(w, a + b + d);
    RunOne(w8, Act(1, Convinced(v)));
    Takes(v);
    MoveSteps(w8.store, w8.locals[1], Convinced(v), x);
    ActIsMove(w8, 1, Convinced(v));
    OthersAbsent(w, a + b);
    OthersAbsent(w8, e);
    OrderedAppend(w, a + b, d);
    OrderedAppend(w, a + b + d, e);
  }

  lemma ActIsMove(w: World, k: Ticket, i: Inputs)
    requires k in w.locals
    ensures Apply(w, Act(k, i)).store == Move(w.store, w.locals[k], i).0
  {}

  lemma Takes(v: Checks.Verdict)
    ensures Convinced(v).update == Done
  {}
}
