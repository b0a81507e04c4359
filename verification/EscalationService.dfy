/** Update as the service runs it: one request over mutable stores. */
module EscalationService {
  import opened Basics
  import opened Onboarding
  import opened EscalationMachine

  ghost function Drive(s: Store, l: Local, i: Inputs, n: nat): (Store, Local)
    decreases n
  {
    if n == 0 then (s, l)
    else
      var (t, m) := Advance(s, l, i);
      Drive(t, m, i, n - 1)
  }

  /** No request has more than five store calls. */
  ghost function Call(s: Store, request: Request, i: Inputs): (Store, Local) {
    Drive(s, Local(request, Reading), i, 5)
  }

  lemma DriveStep(s: Store, l: Local, i: Inputs, n: nat)
    requires n > 0
    ensures Drive(s, l, i, n) == Drive(Advance(s, l, i).0, Advance(s, l, i).1, i, n - 1)
  {}

  lemma {:induction false} DriveOver(s: Store, l: Local, i: Inputs, n: nat)
    requires l.phase.Over?
    ensures Drive(s, l, i, n) == (s, l)
    decreases n
  {
    if n > 0 {
      DriveOver(s, l, i, n - 1);
    }
  }

  /** A call alone is a run in which nobody else moves. */
  lemma {:induction false} DriveIsARun(w: World, k: Ticket, i: Inputs, n: nat)
    requires k in w.locals
    ensures var (t, m) := Drive(w.store, w.locals[k], i, n);
      Run(w, seq(n, _ => Act(k, i))) == World(t, w.locals[k := m])
    decreases n
  {
    var events := seq(n, _ => Act(k, i));
    if n == 0 {
      assert w.locals[k := w.locals[k]] == w.locals;
    } else {
      var (t, m) := Advance(w.store, w.locals[k], i);
      var v := World(t, w.locals[k := m]);
      DriveIsARun(v, k, i, n - 1);
      assert events[1..] == seq(n - 1, _ => Act(k, i));
      var m' := Drive(t, m, i, n - 1).1;
      assert v.locals[k := m'] == w.locals[k := m'];
    }
  }

  class Service {
    var now: int
    var cases: map<CaseId, Case>
    var rows: map<SessionId, Session>
    var cache: map<SessionId, Session>
    ghost var decisions: seq<Decision>
    ghost var transfers: seq<Transfer>

    constructor (now: int)
      ensures View() == Initial(now).store
    {
      this.now, cases, rows, cache, decisions, transfers := now, map[], map[], map[], [], [];
    }

    ghost function View(): Store
      reads this
    {
      Store(now, cases, rows, cache, decisions, transfers)
    }

    /** The conditional update of a claim: ok is the error, hit whether a row changed. */
    method ClaimCase(id: CaseId, agent: Agent, o: Outcome) returns (ok: bool, hit: bool)
      modifies this`cases
      ensures ok <==> o == Done
      ensures hit <==> id in old(cases) && old(cases)[id].status == Pending
      ensures cases == if o == Refused || !hit then old(cases)
                       else old(cases)[id := old(cases)[id].(status := InReview, claimedBy := Some(agent))]
    {
      hit := id in cases && cases[id].status == Pending;
      if hit && o != Refused {
        cases := cases[id := cases[id].(status := InReview, claimedBy := Some(agent))];
      }
      ok := o == Done;
    }

    method ResolveCase(id: CaseId, agent: Agent, resolution: Resolution, o: Outcome) returns (ok: bool, hit: bool)
      modifies this`cases, this`decisions
      ensures ok <==> o == Done
      ensures hit <==> Resolvable(old(View()), id, agent)
      ensures View() == if o == Refused || !hit then old(View())
                        else old(View()).(
                          cases := old(cases)[id := old(cases)[id].(status := Resolved, resolvedBy := Some(agent),
                                                                    resolution := Some(resolution))],
                          decisions := old(decisions) + [Decision(id, agent, resolution)])
    {
      hit := id in cases && (cases[id].status == Pending || cases[id].status == InReview)
             && (cases[id].claimedBy.None? || cases[id].claimedBy.value == agent);
      if hit && o != Refused {
        cases := cases[id := cases[id].(status := Resolved, resolvedBy := Some(agent), resolution := Some(resolution))];
        decisions := decisions + [Decision(id, agent, resolution)];
      }
      ok := o == Done;
    }

    /** Why a conditional update changed no row, from a second read. */
    method StaleState(request: Request, i: Inputs) returns (answer: Answer)
      ensures Reread(View(), Local(request, Rereading), i).1.phase == Over(answer)
    {
      if !i.reread || request.id !in cases {
        return AlreadyClosed;
      }
      if cases[request.id].status == InReview {
        return ClaimedByOther;
      }
      return AlreadyClosed;
    }

    method Respond(request: Request, read: Case, outcome: Option<Resolution>, i: Inputs) returns (answer: Answer)
      modifies this`rows, this`cache, this`transfers
      ensures (View(), Local(request, Over(answer))) ==
              Drive(old(View()), Local(request, Responding(read, outcome)), i, 3)
    {
      hide Drive, CanTransition;
      var x := read.session;
      ghost var l := Local(request, Responding(read, outcome));
      DriveStep(View(), l, i, 3);
      if !i.session || x !in rows || outcome != Some(Approved) || rows[x].expiresAt < now {
        DriveOver(View(), l.(phase := Over(Ok)), i, 2);
        return Ok;
      }
      var session := rows[x];
      var allowed := CheckTransition(session.step, Credentials);
      if !allowed {
        DriveOver(View(), l.(phase := Over(Ok)), i, 2);
        return Ok;
      }
      l := l.(phase := Moving(read, session));
      DriveStep(View(), l, i, 2);
      var moved := session.(step := Credentials, videoCall := true);
      if i.update != Refused {
        rows := rows[x := rows[x].(step := Credentials, biometric := moved.biometric, videoCall := moved.videoCall,
                                   flags := moved.flags)];
        transfers := transfers + [Transfer(request.id, x, session.step)];
      }
      if i.update != Done {
        DriveOver(View(), l.(phase := Over(Failed)), i, 1);
        return Failed;
      }
      l := l.(phase := Publishing(read, moved));
      DriveStep(View(), l, i, 1);
      if i.publish && now < moved.expiresAt {
        cache := cache[x := moved];
      }
      DriveOver(View(), l.(phase := Over(Ok)), i, 0);
      return Ok;
    }

    method Update(request: Request, i: Inputs) returns (answer: Answer)
      modifies this`cases, this`rows, this`cache, this`decisions, this`transfers
      ensures (View(), Local(request, Over(answer))) == Call(old(View()), request, i)
    {
      hide Drive, Fold, EscalationMachine.Respond;
      ghost var l := Local(request, Reading);
      DriveStep(View(), l, i, 5);
      answer := Check(request, i);
      if answer != Ok {
        DriveOver(View(), l.(phase := Over(answer)), i, 4);
        return;
      }
      var esc := cases[request.id];
      if request.action.Claim? && esc.status == InReview {
        SpareStep(View(), l.(phase := Responding(esc, None)), i);
        answer := Respond(request, esc, None, i);
        return;
      }
      var read, outcome, ok, hit := esc, None, false, false;
      match request.action {
        case Claim =>
          DriveStep(View(), l.(phase := Claiming(esc)), i, 4);
          ok, hit := ClaimCase(request.id, request.agent, i.write);
          read := esc.(status := InReview, claimedBy := Some(request.agent));
        case Resolve(resolution) =>
          DriveStep(View(), l.(phase := Resolving(esc, resolution)), i, 4);
          ok, hit := ResolveCase(request.id, request.agent, resolution, i.write);
          outcome := Some(resolution);
      }
      if !ok {
        DriveOver(View(), l.(phase := Over(Failed)), i, 3);
        return Failed;
      }
      if !hit {
        answer := StaleState(request, i);
        DriveStep(View(), l.(phase := Rereading), i, 3);
        DriveOver(View(), l.(phase := Over(answer)), i, 2);
        return;
      }
      answer := Respond(request, read, outcome, i);
    }

    /** The checks before any write: form, existence, closed cases, four eyes, and the holder. */
    method Check(request: Request, i: Inputs) returns (answer: Answer)
      ensures var phase := Read(View(), Local(request, Reading), i).1.phase;
        if answer == Ok then
          request.id in cases
          && phase == match request.action
                      case Claim => if cases[request.id].status == InReview then Responding(cases[request.id], None)
                                    else Claiming(cases[request.id])
                      case Resolve(resolution) => Resolving(cases[request.id], resolution)
        else phase == Over(answer)
    {
      hide Fold;
      if request.id == "" || request.agent == "" || !request.wellFormed {
        return Invalid;
      }
      if !i.find {
        return Failed;
      }
      if request.id !in cases {
        return NotFound;
      }
      var esc := cases[request.id];
      if esc.status == Resolved || esc.status == Cancelled {
        return AlreadyClosed;
      }
      if EqualFold(esc.raisedBy, request.agent) {
        return SelfResolve;
      }
      if esc.status == InReview && (esc.claimedBy.None? || !EqualFold(esc.claimedBy.value, request.agent)) {
        return ClaimedByOther;
      }
      return Ok;
    }
  }

  /** Reopening one's own case leaves a step to spare. */
  lemma SpareStep(s: Store, l: Local, i: Inputs)
    requires l.phase.Responding? && l.phase.outcome.None?
    ensures Drive(s, l, i, 4) == Drive(s, l, i, 3)
  {
    hide CanTransition;
    DriveStep(s, l, i, 4);
    DriveStep(s, l, i, 3);
    DriveOver(s, l.(phase := Over(Ok)), i, 3);
    DriveOver(s, l.(phase := Over(Ok)), i, 2);
  }
}
