/** What one request of a reviewer answers and leaves behind, read off the case and the session it finds. */
module EscalationOutcomes {
  import opened Basics
  import opened Onboarding
  import opened EscalationMachine
  import opened EscalationSafety
  import opened EscalationService

  predicate Formed(r: Request) { r.id != "" && r.agent != "" && r.wellFormed }

  /** The request is well formed, and its case is read and there. */
  predicate Finds(s: Store, r: Request, i: Inputs) { Formed(r) && i.find && r.id in s.cases }

  predicate FindsOpen(s: Store, r: Request, i: Inputs) { Finds(s, r, i) && !Closed(s.cases[r.id]) }

  /** Four eyes: the agent is not the one who raised the case. */
  predicate ByAnother(s: Store, r: Request, i: Inputs) {
    FindsOpen(s, r, i) && !EqualFold(s.cases[r.id].raisedBy, r.agent)
  }

  predicate HeldBy(c: Case, agent: Agent) {
    c.status == InReview && c.claimedBy.Some? && EqualFold(c.claimedBy.value, agent)
  }

  /** The case waits in the queue, or the agent holds it, in whatever case the id is written. */
  predicate May(s: Store, r: Request, i: Inputs) {
    ByAnother(s, r, i) && (s.cases[r.id].status == Pending || HeldBy(s.cases[r.id], r.agent))
  }

  /** The request has a case to write: all but a claim of the holder. */
  predicate ToWrite(s: Store, r: Request, i: Inputs) {
    May(s, r, i) && (r.action.Resolve? || s.cases[r.id].status == Pending)
  }

  /** The table knows the holder, and compares exactly. */
  predicate Mine(s: Store, r: Request)
    requires r.id in s.cases
  {
    r.action.Claim? || s.cases[r.id].claimedBy == None || s.cases[r.id].claimedBy == Some(r.agent)
  }

  predicate Writes(s: Store, r: Request, i: Inputs) { ToWrite(s, r, i) && Mine(s, r) && i.write != Refused }

  /** An approval is stored and its answer arrived; the session is read, unexpired, and at VIDEO_CALL. */
  predicate ToMove(s: Store, r: Request, i: Inputs) {
    && Writes(s, r, i) && i.write == Done && r.action == Resolve(Approved)
    && i.session && s.cases[r.id].session in s.rows
    && s.now <= s.rows[s.cases[r.id].session].expiresAt && s.rows[s.cases[r.id].session].step == VideoCall
  }

  function Written(c: Case, r: Request): Case {
    match r.action
    case Claim => c.(status := InReview, claimedBy := Some(r.agent))
    case Resolve(resolution) => c.(status := Resolved, resolvedBy := Some(r.agent), resolution := Some(resolution))
  }

  // --- The response, in one piece ---

  function MovedRow(row: Session): Session { row.(step := Credentials, videoCall := true) }

  lemma RespondEnds(s: Store, l: Local, i: Inputs, n: nat)
    requires l.phase.Responding? && n >= 3
    ensures var x := l.phase.read.session;
      var (t, m) := Drive(s, l, i, n);
      var moving := l.phase.outcome == Some(Approved) && i.session && x in s.rows && !Expired(s.rows[x], s.now)
                    && s.rows[x].step == VideoCall;
      && m == l.(phase := Over(if moving && i.update != Done then Failed else Ok))
      && t.cases == s.cases && t.now == s.now && t.decisions == s.decisions
      && t.rows == (if moving && i.update != Refused then s.rows[x := MovedRow(s.rows[x])] else s.rows)
      && t.cache == if moving && i.update == Done && i.publish && s.now < s.rows[x].expiresAt
                    then s.cache[x := MovedRow(s.rows[x])] else s.cache
  {
    hide Drive, CanTransition, StepIndex;
    var x := l.phase.read.session;
    DriveStep(s, l, i, n);
    var (s1, l1) := Advance(s, l, i);
    if x in s.rows {
      OnlyFromVideoCall(s.rows[x].step);
    }
    if l1.phase.Moving? {
      DriveStep(s1, l1, i, n - 1);
      var (s2, l2) := Advance(s1, l1, i);
      if l2.phase.Publishing? {
        DriveStep(s2, l2, i, n - 2);
        var (s3, l3) := Advance(s2, l2, i);
        DriveOver(s3, l3, i, n - 3);
      } else {
        DriveOver(s2, l2, i, n - 2);
      }
    } else {
      DriveOver(s1, l1, i, n - 1);
    }
  }

  lemma OnlyFromVideoCall(step: Step)
    ensures CanTransition(step, Credentials) <==> step == VideoCall
  {
    TransitionsExactly(step, Credentials);
  }

  // --- The whole request ---

  function Refusal(s: Store, r: Request, i: Inputs): Answer {
    if !Formed(r) then Invalid
    else if !i.find then Failed
    else if r.id !in s.cases then NotFound
    else if Closed(s.cases[r.id]) then AlreadyClosed
    else if EqualFold(s.cases[r.id].raisedBy, r.agent) then SelfResolve
    else ClaimedByOther
  }

  lemma RefusedEnds(s: Store, r: Request, i: Inputs)
    requires !May(s, r, i)
    ensures Call(s, r, i) == (s, Local(r, Over(Refusal(s, r, i))))
  {
    hide Drive, Fold;
    var l := Local(r, Reading);
    DriveStep(s, l, i, 5);
    DriveOver(s, Read(s, l, i).1, i, 4);
  }

  lemma ReopenEnds(s: Store, r: Request, i: Inputs)
    requires May(s, r, i) && !ToWrite(s, r, i)
    ensures Call(s, r, i) == (s, Local(r, Over(Ok)))
  {
    hide Drive, Fold, EscalationMachine.Respond;
    var l := Local(r, Responding(s.cases[r.id], None));
    DriveStep(s, Local(r, Reading), i, 5);
    SpareStep(s, l, i);
    ReopenResponds(s, l, i);
  }

  lemma ReopenResponds(s: Store, l: Local, i: Inputs)
    requires l.phase.Responding? && l.phase.outcome.None?
    ensures Drive(s, l, i, 3) == (s, l.(phase := Over(Ok)))
  {
    hide Drive, CanTransition;
    DriveStep(s, l, i, 3);
    DriveOver(s, l.(phase := Over(Ok)), i, 2);
  }

  /** The store after the conditional update. */
  function Stored(s: Store, r: Request, i: Inputs): (t: Store)
    ensures t.now == s.now && t.rows == s.rows && t.cache == s.cache
  {
    if !Writes(s, r, i) then s
    else
      s.(cases := s.cases[r.id := Written(s.cases[r.id], r)],
         decisions := if r.action.Resolve? then s.decisions + [Decision(r.id, r.agent, r.action.resolution)]
                      else s.decisions)
  }

  /** The update of a request that has one to make: it fails, or misses its row and is told why, or the
      answer is on its way. */
  lemma WriteEnds(s: Store, r: Request, i: Inputs)
    requires ToWrite(s, r, i)
    ensures var c := s.cases[r.id];
      var t := Stored(s, r, i);
      if i.write != Done then Call(s, r, i) == (t, Local(r, Over(Failed)))
      else if !Mine(s, r) then
        Call(s, r, i) == (s, Local(r, Over(if i.reread && c.status == InReview then ClaimedByOther else AlreadyClosed)))
      else
        exists read: Case :: read.session == c.session
          && Call(s, r, i) == Drive(t, Local(r, Responding(read, if r.action.Claim? then None
                                                                 else Some(r.action.resolution))), i, 3)
  {
    hide Drive, Fold, EscalationMachine.Respond;
    var c, l := s.cases[r.id], Local(r, Reading);
    DriveStep(s, l, i, 5);
    var (s1, l1) := Advance(s, l, i);
    DriveStep(s1, l1, i, 4);
    var (s2, l2) := Advance(s1, l1, i);
    if l2.phase.Over? {
      DriveOver(s2, l2, i, 3);
    } else if l2.phase.Rereading? {
      DriveStep(s2, l2, i, 3);
      var (s3, l3) := Advance(s2, l2, i);
      DriveOver(s3, l3, i, 2);
    } else {
      assert l2.phase.read.session == c.session;
    }
  }

  /** The answer of every request, by the case it finds. */
  lemma AnswersExactly(s: Store, r: Request, i: Inputs)
    ensures var (t, l) := Call(s, r, i);
      && l.request == r && l.phase.Over?
      && var answer := l.phase.answer;
      && (answer == Invalid <==> !Formed(r))
      && (answer == NotFound <==> Formed(r) && i.find && r.id !in s.cases)
      && (answer == SelfResolve <==> FindsOpen(s, r, i) && !ByAnother(s, r, i))
      && (answer == AlreadyClosed <==>
          || (Finds(s, r, i) && Closed(s.cases[r.id]))
          || (ToWrite(s, r, i) && i.write == Done && !Mine(s, r) && !(i.reread && s.cases[r.id].status == InReview)))
      && (answer == ClaimedByOther <==>
          || (ByAnother(s, r, i) && !May(s, r, i))
          || (ToWrite(s, r, i) && i.write == Done && !Mine(s, r) && i.reread && s.cases[r.id].status == InReview))
      && (answer == Failed <==>
          || (Formed(r) && !i.find)
          || (ToWrite(s, r, i) && i.write != Done)
          || (ToMove(s, r, i) && i.update != Done))
      && (answer == Ok <==>
          && May(s, r, i)
          && (ToWrite(s, r, i) ==> i.write == Done && Mine(s, r))
          && (ToMove(s, r, i) ==> i.update == Done))
  {
    hide Drive, Fold, EqualFold, Call;
    Ends(s, r, i);
  }

  /** What it leaves: its case claimed or resolved, for an approval its session moved on, and nothing
      else. */
  lemma LeavesExactly(s: Store, r: Request, i: Inputs)
    ensures var t := Call(s, r, i).0;
      && t.cases == (if Writes(s, r, i) then s.cases[r.id := Written(s.cases[r.id], r)] else s.cases)
      && t.rows == (if ToMove(s, r, i) && i.update != Refused
                    then s.rows[s.cases[r.id].session := MovedRow(s.rows[s.cases[r.id].session])] else s.rows)
      && t.cache == (if ToMove(s, r, i) && i.update == Done && i.publish
                        && s.now < s.rows[s.cases[r.id].session].expiresAt
                     then s.cache[s.cases[r.id].session := MovedRow(s.rows[s.cases[r.id].session])] else s.cache)
  {
    hide Drive, Fold, EqualFold, Call;
    Ends(s, r, i);
  }

  lemma Ends(s: Store, r: Request, i: Inputs)
    ensures var (t, l) := Call(s, r, i);
      && l.request == r
      && (!May(s, r, i) ==> t == s && l.phase == Over(Refusal(s, r, i)))
      && (May(s, r, i) && !ToWrite(s, r, i) ==> t == s && l.phase == Over(Ok))
      && (ToWrite(s, r, i) && i.write != Done ==> t == Stored(s, r, i) && l.phase == Over(Failed))
      && (ToWrite(s, r, i) && i.write == Done && !Mine(s, r) ==>
            t == s && l.phase == Over(if i.reread && s.cases[r.id].status == InReview then ClaimedByOther
                                      else AlreadyClosed))
      && (ToWrite(s, r, i) && i.write == Done && Mine(s, r) ==>
            && l.phase == Over(if ToMove(s, r, i) && i.update != Done then Failed else Ok)
            && t.cases == Stored(s, r, i).cases
            && t.rows == (if ToMove(s, r, i) && i.update != Refused
                          then s.rows[s.cases[r.id].session := MovedRow(s.rows[s.cases[r.id].session])] else s.rows)
            && t.cache == (if ToMove(s, r, i) && i.update == Done && i.publish
                              && s.now < s.rows[s.cases[r.id].session].expiresAt
                           then s.cache[s.cases[r.id].session := MovedRow(s.rows[s.cases[r.id].session])]
                           else s.cache))
  {
    hide Drive, Fold, EqualFold, Call, MovedRow;
    if !May(s, r, i) {
      RefusedEnds(s, r, i);
    } else if !ToWrite(s, r, i) {
      ReopenEnds(s, r, i);
    } else {
      WriteEnds(s, r, i);
      if i.write == Done && Mine(s, r) {
        var outcome := if r.action.Claim? then None else Some(r.action.resolution);
        var t := Stored(s, r, i);
        var read: Case :| read.session == s.cases[r.id].session
          && Call(s, r, i) == Drive(t, Local(r, Responding(read, outcome)), i, 3);
        RespondEnds(t, Local(r, Responding(read, outcome)), i, 3);
      }
    }
  }

  /** In every reachable state the holder of a case resolves it: well formed, with the calls answering, the
      resolution is stored and acknowledged, and an approval takes an unexpired session at VIDEO_CALL to
      CREDENTIALS. */
  lemma HolderResolves(now: int, events: seq<Event>, r: Request, i: Inputs)
    requires var s := Run(Initial(now), events).store;
      && Formed(r) && r.action.Resolve? && r.id in s.cases && s.cases[r.id].status == InReview
      && s.cases[r.id].claimedBy == Some(r.agent)
    requires i.find && i.write == Done && i.session && i.update == Done
    ensures var s := Run(Initial(now), events).store;
      var (t, l) := Call(s, r, i);
      && l.phase == Over(Ok) && t.cases == s.cases[r.id := s.cases[r.id].(
           status := Resolved, resolvedBy := Some(r.agent), resolution := Some(r.action.resolution))]
      && var x := s.cases[r.id].session;
         r.action.resolution == Approved && x in s.rows && s.now <= s.rows[x].expiresAt
         && s.rows[x].step == VideoCall ==>
           t.rows == s.rows[x := s.rows[x].(step := Credentials, videoCall := true)]
  {
    hide Run, Initial, Call, Fold, EqualFold;
    InitialIsFine(now);
    RunKeepsInv(Initial(now), events);
    var s := Run(Initial(now), events).store;
    assert CaseOk(s, r.id);
    Ends(s, r, i);
    SameFolds(r.agent);
  }

  lemma SameFolds(a: Agent)
    ensures EqualFold(a, a)
  {}

  /** And whoever raised no case in the queue claims it: it is theirs, and they may resolve it. */
  lemma ClaimerHolds(now: int, events: seq<Event>, r: Request, i: Inputs)
    requires var s := Run(Initial(now), events).store;
      && Formed(r) && r.action.Claim? && r.id in s.cases && s.cases[r.id].status == Pending
      && !EqualFold(s.cases[r.id].raisedBy, r.agent)
    requires i.find && i.write == Done
    ensures var s := Run(Initial(now), events).store;
      var (t, l) := Call(s, r, i);
      && l.phase == Over(Ok)
      && t.cases == s.cases[r.id := s.cases[r.id].(status := InReview, claimedBy := Some(r.agent))]
      && t.rows == s.rows && May(t, r, i)
  {
    hide Run, Initial, Call, Fold, EqualFold;
    Ends(Run(Initial(now), events).store, r, i);
    SameFolds(r.agent);
  }
}
