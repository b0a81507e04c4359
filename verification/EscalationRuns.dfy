/** Runs of the escalation service in which every store call succeeds and the outcome is not the
    one its comments promise. */
module EscalationRuns {
  import opened Basics
  import opened Onboarding
  import opened EscalationMachine
  import opened EscalationSafety

  const FINE := Inputs(true, Done, true, true, Done, true)

  lemma {:induction false} RunAppend(w: World, first: seq<Event>, rest: seq<Event>)
    ensures Run(w, first + rest) == Run(Run(w, first), rest)
    decreases |first|
  {
    hide Apply;
    if first == [] {
      assert first + rest == rest;
    } else {
      assert (first + rest)[1..] == first[1..] + rest;
      RunAppend(Apply(w, first[0]), first[1..], rest);
    }
  }

  lemma RunTwoOrThree(w: World, events: seq<Event>)
    ensures |events| == 2 ==> Run(w, events) == Apply(Apply(w, events[0]), events[1])
    ensures |events| == 3 ==> Run(w, events) == Apply(Apply(Apply(w, events[0]), events[1]), events[2])
  {
    hide Apply;
    if |events| > 1 {
      RunAppend(w, events[..1], events[1..]);
      RunAppend(Apply(w, events[0]), events[1..2], events[2..]);
      assert events == events[..1] + events[1..] && events[1..] == events[1..2] + events[2..];
      if |events| == 3 {
        assert events[2..] == [events[2]];
      }
    }
  }

  // --- Other services keep to the order of the steps ---

  /** No other service moves a session except along an admissible transition. */
  ghost predicate KeepsOrder(w: World, e: Event) {
    e.Elsewhere? && e.session in w.store.rows ==> CanTransition(w.store.rows[e.session].step, e.row.step)
  }

  ghost predicate OrderedRun(w: World, events: seq<Event>)
    decreases |events|
  {
    events == [] || (KeepsOrder(w, events[0]) && OrderedRun(Apply(w, events[0]), events[1..]))
  }

  lemma {:induction false} OrderedAppend(w: World, first: seq<Event>, rest: seq<Event>)
    requires OrderedRun(w, first) && OrderedRun(Run(w, first), rest)
    ensures OrderedRun(w, first + rest)
    decreases |first|
  {
    hide Apply, KeepsOrder;
    if first == [] {
      assert first + rest == rest;
    } else {
      assert (first + rest)[1..] == first[1..] + rest;
      OrderedAppend(Apply(w, first[0]), first[1..], rest);
    }
  }

  lemma {:induction false} OthersAbsent(w: World, events: seq<Event>)
    requires forall e :: e in events ==> !e.Elsewhere?
    ensures OrderedRun(w, events)
    decreases |events|
  {
    hide Apply;
    if events != [] {
      OthersAbsent(Apply(w, events[0]), events[1..]);
    }
  }

  lemma StartsOrdered(w: World, events: seq<Event>)
    ensures OrderedRun(w, events) <==>
            events == [] || (KeepsOrder(w, events[0]) && OrderedRun(Apply(w, events[0]), events[1..]))
  {}

  /** A session goes on one step at a time. */
  function Walk(x: SessionId, row: Session, here: nat, there: nat): seq<Event>
    requires here <= there < |STEP_ORDER|
    decreases there - here
  {
    if here == there then []
    else [Elsewhere(x, row.(step := STEP_ORDER[here + 1]))] + Walk(x, row, here + 1, there)
  }

  lemma {:induction false} Walks(w: World, x: SessionId, row: Session, here: nat, there: nat)
    requires here <= there < |STEP_ORDER| && x in w.store.rows && StepIndex(w.store.rows[x].step) == here
    ensures OrderedRun(w, Walk(x, row, here, there))
    ensures var v := Run(w, Walk(x, row, here, there));
      v.locals == w.locals && x in v.store.rows
    decreases there - here
  {
    hide CanTransition, OrderedRun;
    StartsOrdered(w, Walk(x, row, here, there));
    if here < there {
      var e := Elsewhere(x, row.(step := STEP_ORDER[here + 1]));
      IndexOfStep(here + 1);
      TransitionsExactly(w.store.rows[x].step, e.row.step);
      Walks(Apply(w, e), x, row, here + 1, there);
      assert Walk(x, row, here, there)[1..] == Walk(x, row, here + 1, there);
    }
  }

  /** A case is raised, and one reviewer resolves it. */
  function Raised(id: CaseId, x: SessionId, row: Session, a: Agent, request: Request): seq<Event> {
    [Elsewhere(x, row), Raise(id, x, a), Submit(1, request)]
  }

  /** The session goes on, step by step, between the read and the write of the approval. */
  function Overtaken(id: CaseId, x: SessionId, row: Session, later: Step, a: Agent, b: Agent): seq<Event>
    requires StepIndex(Credentials) < StepIndex(later)
  {
    Raised(id, x, row, a, Request(id, b, Resolve(Approved), true))
    + [Act(1, FINE), Act(1, FINE), Act(1, FINE)]
    + Walk(x, row, StepIndex(VideoCall), StepIndex(later))
    + [Act(1, FINE)]
  }

  function Filed(now: int, id: CaseId, x: SessionId, row: Session, a: Agent, request: Request): World {
    World(Store(now, map[id := Case(x, a, Pending, None, None, None)], map[x := row], map[], [], []),
          map[1 := Local(request, Reading)])
  }

  lemma RaisedRuns(now: int, id: CaseId, x: SessionId, row: Session, a: Agent, request: Request)
    ensures Run(Initial(now), Raised(id, x, row, a, request)) == Filed(now, id, x, row, a, request)
  {
    hide Run;
    RunTwoOrThree(Initial(now), Raised(id, x, row, a, request));
  }

  /** The session is new. */
  lemma RaisedInOrder(now: int, id: CaseId, x: SessionId, row: Session, a: Agent, request: Request)
    ensures OrderedRun(Initial(now), Raised(id, x, row, a, request))
  {
    hide OrderedRun, Apply;
    var w, events := Initial(now), Raised(id, x, row, a, request);
    StartsOrdered(w, events);
    OthersAbsent(Apply(w, events[0]), events[1..]);
  }

  lemma RunOne(w: World, e: Event)
    ensures Run(w, [e]) == Apply(w, e)
  {
    hide Apply;
    assert [e][1..] == [];
  }

  /** The request reads the case, resolves it, and reads the session. */
  lemma ApprovalReads(now: int, id: CaseId, x: SessionId, row: Session, a: Agent, b: Agent)
    requires id != "" && b != "" && !EqualFold(a, b) && row.step == VideoCall && !Expired(row, now)
    ensures var request := Request(id, b, Resolve(Approved), true);
      var w := Run(Filed(now, id, x, row, a, request), [Act(1, FINE), Act(1, FINE), Act(1, FINE)]);
      && w.store.rows == map[x := row]
      && w.locals == map[1 := Local(request, Moving(Case(x, a, Pending, None, None, None), row))]
  {
    hide Run, EqualFold, CanTransition;
    TransitionsExactly(VideoCall, Credentials);
    RunTwoOrThree(Filed(now, id, x, row, a, Request(id, b, Resolve(Approved), true)),
                  [Act(1, FINE), Act(1, FINE), Act(1, FINE)]);
  }

  /** An approval that read VIDEO_CALL takes back a session that has gone past CREDENTIALS since, in
      a run in which every other service keeps to the order of the steps. */
  lemma StaleReadMovesBack(now: int, id: CaseId, x: SessionId, row: Session, later: Step, a: Agent, b: Agent)
    requires id != "" && b != "" && !EqualFold(a, b) && row.step == VideoCall && !Expired(row, now)
    requires StepIndex(Credentials) < StepIndex(later)
    ensures var w := Run(Initial(now), Overtaken(id, x, row, later, a, b));
      x in w.store.rows && w.store.rows[x].step == Credentials
    ensures OrderedRun(Initial(now), Overtaken(id, x, row, later, a, b))
  {
    hide Run, Raised, Walk, OrderedRun, EqualFold;
    var first, looks, walk := Raised(id, x, row, a, Request(id, b, Resolve(Approved), true)),
                              [Act(1, FINE), Act(1, FINE), Act(1, FINE)],
                              Walk(x, row, StepIndex(VideoCall), StepIndex(later));
    RunAppend(Initial(now), first + looks + walk, [Act(1, FINE)]);
    RunAppend(Initial(now), first + looks, walk);
    RunAppend(Initial(now), first, looks);
    RaisedRuns(now, id, x, row, a, Request(id, b, Resolve(Approved), true));
    RaisedInOrder(now, id, x, row, a, Request(id, b, Resolve(Approved), true));
    ApprovalReads(now, id, x, row, a, b);
    Walks(Run(Initial(now), first + looks), x, row, StepIndex(VideoCall), StepIndex(later));
    RunOne(Run(Initial(now), first + looks + walk), Act(1, FINE));
    OthersAbsent(Run(Initial(now), first), looks);
    OthersAbsent(Run(Initial(now), first + looks + walk), [Act(1, FINE)]);
    OrderedAppend(Initial(now), first, looks);
    OrderedAppend(Initial(now), first + looks, walk);
    OrderedAppend(Initial(now), first + looks + walk, [Act(1, FINE)]);
  }

  /** One agent claims a case twice at once. */
  function ClaimedTwice(id: CaseId, x: SessionId, row: Session, a: Agent, b: Agent): seq<Event> {
    Raised(id, x, row, a, Request(id, b, Claim, true))
    + [Submit(2, Request(id, b, Claim, true)), Act(1, FINE), Act(2, FINE)]
    + [Act(1, FINE), Act(2, FINE), Act(2, FINE)]
  }

  /** The second claim is answered that another agent holds the case, and the holder is the agent
      that asks. */
  lemma OwnClaimLooksForeign(now: int, id: CaseId, x: SessionId, row: Session, a: Agent, b: Agent)
    requires id != "" && b != "" && !EqualFold(a, b)
    ensures var w := Run(Initial(now), ClaimedTwice(id, x, row, a, b));
      && 2 in w.locals && w.locals[2] == Local(Request(id, b, Claim, true), Over(ClaimedByOther))
      && id in w.store.cases && w.store.cases[id].claimedBy == Some(b)
  {
    hide Run, Raised, EqualFold;
    var request := Request(id, b, Claim, true);
    var first, looks, rest := Raised(id, x, row, a, request),
                              [Submit(2, request), Act(1, FINE), Act(2, FINE)],
                              [Act(1, FINE), Act(2, FINE), Act(2, FINE)];
    RunAppend(Initial(now), first + looks, rest);
    RunAppend(Initial(now), first, looks);
    RaisedRuns(now, id, x, row, a, request);
    RunTwoOrThree(Filed(now, id, x, row, a, request), looks);
    RunTwoOrThree(Run(Initial(now), first + looks), rest);
  }
}
