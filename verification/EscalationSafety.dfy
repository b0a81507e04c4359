/** What every interleaving of reviewers keeps. */
module EscalationSafety {
  import opened Basics
  import opened Onboarding
  import opened EscalationMachine

  predicate CaseOk(s: Store, id: CaseId)
    requires id in s.cases
  {
    var c := s.cases[id];
    && (c.status == Pending ==> c.claimedBy.None?) && (c.status == InReview ==> c.claimedBy.Some?)
    && (c.status == Resolved <==> c.resolvedBy.Some?) && (c.status == Resolved <==> c.resolution.Some?)
    && (c.claimedBy.Some? ==> !EqualFold(c.raisedBy, c.claimedBy.value))
    && (c.resolvedBy.Some? ==> !EqualFold(c.raisedBy, c.resolvedBy.value))
    && (c.resolvedBy.Some? && c.claimedBy.Some? ==> c.resolvedBy == c.claimedBy)
  }

  predicate Stands(s: Store, d: Decision) {
    && d.id in s.cases && s.cases[d.id].resolvedBy == Some(d.agent) && s.cases[d.id].resolution == Some(d.resolution)
  }

  predicate IsApproved(s: Store, id: CaseId, x: SessionId) {
    id in s.cases && s.cases[id].session == x && s.cases[id].resolution == Some(Approved)
  }

  predicate TransferOk(s: Store, t: Transfer) {
    IsApproved(s, t.id, t.session) && t.seen == VideoCall
  }

  predicate StoreOk(s: Store) {
    && (forall id {:trigger CaseOk(s, id)} :: id in s.cases ==> CaseOk(s, id))
    && (forall k {:trigger s.decisions[k]} :: 0 <= k < |s.decisions| ==> Stands(s, s.decisions[k]))
    && (forall j, k {:trigger s.decisions[j], s.decisions[k]} :: 0 <= j < k < |s.decisions| ==>
          s.decisions[j].id != s.decisions[k].id)
    && (forall id {:trigger s.cases[id]} :: id in s.cases && s.cases[id].status == Resolved ==> Decided(s, id))
    && (forall k {:trigger s.transfers[k]} :: 0 <= k < |s.transfers| ==> TransferOk(s, s.transfers[k]))
  }

  predicate Decided(s: Store, id: CaseId) {
    exists k :: 0 <= k < |s.decisions| && s.decisions[k].id == id
  }

  predicate About(s: Store, l: Local, c: Case) {
    && l.request.id in s.cases && c.session == s.cases[l.request.id].session
    && c.raisedBy == s.cases[l.request.id].raisedBy && !EqualFold(c.raisedBy, l.request.agent)
  }

  predicate LocalOk(s: Store, l: Local) {
    match l.phase
    case Claiming(c) => About(s, l, c) && l.request.action.Claim?
    case Resolving(c, _) => About(s, l, c)
    case Responding(c, outcome) =>
      About(s, l, c) && (outcome == Some(Approved) ==> IsApproved(s, l.request.id, c.session))
    case Moving(c, copy) =>
      About(s, l, c) && IsApproved(s, l.request.id, c.session) && copy.step == VideoCall
    case Publishing(c, _) => About(s, l, c)
    case Rereading => Missed(s, l.request)
    case _ => true
  }

  predicate Closed(c: Case) { c.status == Resolved || c.status == Cancelled }

  /** Why a conditional update changed nothing. */
  predicate Missed(s: Store, r: Request) {
    && r.id in s.cases && s.cases[r.id].status != Pending
    && (r.action.Resolve? && !Closed(s.cases[r.id]) ==>
          s.cases[r.id].claimedBy.Some? && s.cases[r.id].claimedBy.value != r.agent)
  }

  /** A case keeps who raised it and the first claim; once out of the queue it does not return
      to it, and once closed it does not change. */
  predicate CaseLater(c: Case, d: Case) {
    && d.session == c.session && d.raisedBy == c.raisedBy
    && (c.claimedBy.Some? ==> d.claimedBy == c.claimedBy)
    && (c.status != Pending ==> d.status != Pending)
    && (Closed(c) ==> d == c)
  }

  predicate Later(s: Store, t: Store) {
    && s.cases.Keys <= t.cases.Keys && s.decisions <= t.decisions && s.transfers <= t.transfers
    && (forall id {:trigger t.cases[id]} :: id in s.cases ==> CaseLater(s.cases[id], t.cases[id]))
  }

  lemma LocalStays(s: Store, t: Store, l: Local)
    requires StoreOk(s) && LocalOk(s, l) && Later(s, t)
    ensures LocalOk(t, l)
  {
    if l.request.id in s.cases {
      assert CaseOk(s, l.request.id) && CaseLater(s.cases[l.request.id], t.cases[l.request.id]);
    }
  }

  lemma ReadKeeps(s: Store, l: Local, i: Inputs)
    requires StoreOk(s)
    ensures LocalOk(s, Read(s, l, i).1)
  {
    hide StoreOk, Fold;
  }

  lemma ClaimKeeps(s: Store, l: Local, i: Inputs)
    requires StoreOk(s) && LocalOk(s, l) && l.phase.Claiming?
    ensures var (t, m) := WriteClaim(s, l, i); StoreOk(t) && Later(s, t) && LocalOk(t, m)
  {
    hide EqualFold, StoreOk, Later, CaseOk;
    ClaimKeepsStore(s, l, i);
  }

  lemma ClaimKeepsStore(s: Store, l: Local, i: Inputs)
    requires StoreOk(s) && LocalOk(s, l) && l.phase.Claiming?
    ensures var t := WriteClaim(s, l, i).0; StoreOk(t) && Later(s, t)
  {
    hide EqualFold;
    var (t, m) := WriteClaim(s, l, i);
    forall id | id in t.cases ensures CaseOk(t, id) && CaseLater(s.cases[id], t.cases[id]) {
      assert CaseOk(s, id);
    }
    forall id | id in t.cases && t.cases[id].status == Resolved ensures Decided(t, id) {
      assert s.cases[id].status == Resolved;
      assert Decided(s, id);
    }
    forall k | 0 <= k < |t.decisions| ensures Stands(t, t.decisions[k]) {
      assert Stands(s, s.decisions[k]) && CaseOk(s, s.decisions[k].id);
    }
    forall k | 0 <= k < |t.transfers| ensures TransferOk(t, t.transfers[k]) {
      assert TransferOk(s, s.transfers[k]) && CaseOk(s, s.transfers[k].id);
    }
  }

  /** The store after a resolution that found its row. */
  function AfterResolution(s: Store, d: Decision): Store
    requires d.id in s.cases
  {
    s.(cases := s.cases[d.id := s.cases[d.id].(status := Resolved, resolvedBy := Some(d.agent),
                                               resolution := Some(d.resolution))],
       decisions := s.decisions + [d])
  }

  lemma ResolvedCases(s: Store, d: Decision)
    requires StoreOk(s) && Resolvable(s, d.id, d.agent) && !EqualFold(s.cases[d.id].raisedBy, d.agent)
    ensures var t := AfterResolution(s, d);
      (forall x :: x in t.cases ==> CaseOk(t, x)) && Later(s, t)
  {
    hide EqualFold;
    var t := AfterResolution(s, d);
    forall x | x in t.cases ensures CaseOk(t, x) && CaseLater(s.cases[x], t.cases[x]) {
      assert CaseOk(s, x);
    }
  }

  lemma ResolvedLogs(s: Store, d: Decision)
    requires StoreOk(s) && Resolvable(s, d.id, d.agent) && !EqualFold(s.cases[d.id].raisedBy, d.agent)
    ensures StoreOk(AfterResolution(s, d))
  {
    ResolvedCases(s, d);
    hide EqualFold, CaseOk, CaseLater;
    var t := AfterResolution(s, d);
    forall x | x in t.cases && t.cases[x].status == Resolved ensures Decided(t, x) {
      if x == d.id {
        assert t.decisions[|s.decisions|].id == x;
      } else {
        assert s.cases[x].status == Resolved;
        assert Decided(s, x);
        var k :| 0 <= k < |s.decisions| && s.decisions[k].id == x;
        assert t.decisions[k].id == x;
      }
    }
    OpenCaseIsUnlogged(s, d.id);
    forall k | 0 <= k < |t.decisions| ensures Stands(t, t.decisions[k]) {
      assert k < |s.decisions| ==> Stands(s, s.decisions[k]);
    }
    forall k | 0 <= k < |t.transfers| ensures TransferOk(t, t.transfers[k]) {
      assert TransferOk(s, s.transfers[k]);
    }
  }

  lemma OpenCaseIsUnlogged(s: Store, id: CaseId)
    requires StoreOk(s) && id in s.cases && s.cases[id].status != Resolved
    ensures forall k :: 0 <= k < |s.decisions| ==> s.decisions[k].id != id
    ensures forall k :: 0 <= k < |s.transfers| ==> s.transfers[k].id != id
  {
    hide EqualFold;
    assert CaseOk(s, id);
    forall k | 0 <= k < |s.decisions| ensures s.decisions[k].id != id {
      assert Stands(s, s.decisions[k]);
    }
    forall k | 0 <= k < |s.transfers| ensures s.transfers[k].id != id {
      assert TransferOk(s, s.transfers[k]);
    }
  }

  lemma MissedResolution(s: Store, l: Local)
    requires StoreOk(s) && LocalOk(s, l) && l.phase.Resolving? && !Resolvable(s, l.request.id, l.request.agent)
    ensures Missed(s, l.request)
  {
    hide EqualFold;
    assert CaseOk(s, l.request.id);
  }

  lemma ResolutionKeeps(s: Store, l: Local, i: Inputs)
    requires StoreOk(s) && LocalOk(s, l) && l.phase.Resolving?
    ensures var (t, m) := WriteResolution(s, l, i); StoreOk(t) && Later(s, t) && LocalOk(t, m)
  {
    hide StoreOk, EqualFold, CaseOk, Later, Missed;
    LaterSelf(s);
    if Resolvable(s, l.request.id, l.request.agent) {
      var d := Decision(l.request.id, l.request.agent, l.phase.resolution);
      ResolvedCases(s, d);
      ResolvedLogs(s, d);
    } else {
      MissedResolution(s, l);
    }
  }

  lemma RespondKeeps(s: Store, l: Local, i: Inputs)
    requires StoreOk(s) && LocalOk(s, l) && l.phase.Responding?
    ensures LocalOk(s, Respond(s, l, i).1)
  {
    hide StoreOk, EqualFold, CanTransition;
    if l.phase.read.session in s.rows {
      TransitionsExactly(s.rows[l.phase.read.session].step, Credentials);
    }
  }

  /** A store with the same cases, decisions and transfers, or one more transfer. */
  lemma SameCases(s: Store, t: Store)
    requires StoreOk(s) && t.cases == s.cases && t.decisions == s.decisions
    requires t.transfers == s.transfers || exists x :: t.transfers == s.transfers + [x] && TransferOk(s, x)
    ensures StoreOk(t) && Later(s, t)
  {
    forall id | id in t.cases ensures CaseOk(t, id) {
      assert CaseOk(s, id);
    }
    forall id | id in t.cases && t.cases[id].status == Resolved ensures Decided(t, id) {
      assert Decided(s, id);
    }
    forall k | 0 <= k < |t.transfers| ensures TransferOk(t, t.transfers[k]) {
      assert k < |s.transfers| ==> TransferOk(s, s.transfers[k]);
    }
  }

  lemma AdvanceKeeps(s: Store, l: Local, i: Inputs)
    requires StoreOk(s) && LocalOk(s, l)
    ensures var (t, m) := Advance(s, l, i); StoreOk(t) && Later(s, t) && LocalOk(t, m)
  {
    hide StoreOk, Later, Read, WriteClaim, WriteResolution, Respond, EqualFold;
    match l.phase
    case Reading => ReadKeeps(s, l, i); SameCases(s, s); ReadOnly(s, l, i);
    case Claiming(_) => ClaimKeeps(s, l, i);
    case Resolving(_, _) => ResolutionKeeps(s, l, i);
    case Responding(_, _) => RespondKeeps(s, l, i); SameCases(s, s); RespondOnly(s, l, i);
    case Moving(c, copy) =>
      var t := Move(s, l, i).0;
      if t.transfers != s.transfers {
        assert t.transfers == s.transfers + [Transfer(l.request.id, c.session, copy.step)];
      }
      SameCases(s, t);
    case _ => SameCases(s, Advance(s, l, i).0);
  }

  lemma ReadOnly(s: Store, l: Local, i: Inputs)
    ensures Read(s, l, i).0 == s
  {}

  lemma RespondOnly(s: Store, l: Local, i: Inputs)
    requires l.phase.Responding?
    ensures Respond(s, l, i).0 == s
  {}

  predicate Inv(w: World) {
    && StoreOk(w.store)
    && (forall k {:trigger LocalOk(w.store, w.locals[k])} :: k in w.locals ==> LocalOk(w.store, w.locals[k]))
  }

  lemma StoreStepKeeps(w: World, t: Store)
    requires Inv(w) && StoreOk(t) && Later(w.store, t)
    ensures Inv(w.(store := t))
  {
    hide StoreOk, Later;
    forall k | k in w.locals ensures LocalOk(t, w.locals[k]) {
      assert LocalOk(w.store, w.locals[k]);
      LocalStays(w.store, t, w.locals[k]);
    }
  }

  lemma ActKeeps(w: World, k: Ticket, i: Inputs)
    requires Inv(w) && k in w.locals
    ensures Inv(Apply(w, Act(k, i))) && Later(w.store, Apply(w, Act(k, i)).store)
  {
    hide StoreOk, Later, Advance, LocalOk;
    assert LocalOk(w.store, w.locals[k]);
    AdvanceKeeps(w.store, w.locals[k], i);
    var v := Apply(w, Act(k, i));
    StoreStepKeeps(w, v.store);
    forall j | j in v.locals ensures LocalOk(v.store, v.locals[j]) {
      assert j != k ==> LocalOk(w.(store := v.store).store, w.locals[j]);
    }
  }

  lemma CaseStepKeeps(s: Store, id: CaseId, c: Case)
    requires StoreOk(s) && c.status != Resolved && c.resolvedBy.None? && c.resolution.None?
    requires if id in s.cases then c == s.cases[id].(status := Cancelled) && s.cases[id].status != Resolved
             else c.status == Pending && c.claimedBy.None?
    ensures var t := s.(cases := s.cases[id := c]); StoreOk(t) && Later(s, t)
  {
    hide EqualFold;
    var t := s.(cases := s.cases[id := c]);
    forall x | x in t.cases ensures CaseOk(t, x) {
      assert x in s.cases ==> CaseOk(s, x);
    }
    forall x | x in t.cases && t.cases[x].status == Resolved ensures Decided(t, x) {
      assert s.cases[x].status == Resolved;
      assert Decided(s, x);
    }
    forall k | 0 <= k < |t.decisions| ensures Stands(t, t.decisions[k]) {
      assert Stands(s, s.decisions[k]) && CaseOk(s, s.decisions[k].id);
    }
    forall k | 0 <= k < |t.transfers| ensures TransferOk(t, t.transfers[k]) {
      assert TransferOk(s, s.transfers[k]) && CaseOk(s, s.transfers[k].id);
    }
  }

  lemma StepKeepsInv(w: World, e: Event)
    requires Inv(w)
    ensures Inv(Apply(w, e)) && Later(w.store, Apply(w, e).store)
  {
    hide StoreOk, LocalOk, Later, Advance;
    SameCases(w.store, w.store);
    match e
    case Act(k, i) => if k in w.locals { ActKeeps(w, k, i); }
    case Submit(k, request) => SubmitKeeps(w, k, request);
    case Raise(id, x, agent) =>
      if id !in w.store.cases {
        CaseStepKeeps(w.store, id, Case(x, agent, Pending, None, None, None));
        StoreStepKeeps(w, Apply(w, e).store);
      }
    case Cancel(id) =>
      if id in w.store.cases && (w.store.cases[id].status == Pending || w.store.cases[id].status == InReview) {
        assert CaseOk(w.store, id);
        CaseStepKeeps(w.store, id, w.store.cases[id].(status := Cancelled));
        StoreStepKeeps(w, Apply(w, e).store);
      }
    case _ =>
      SameCases(w.store, Apply(w, e).store);
      StoreStepKeeps(w, Apply(w, e).store);
  }

  lemma SubmitKeeps(w: World, k: Ticket, request: Request)
    requires Inv(w)
    ensures Inv(Apply(w, Submit(k, request)))
  {
    hide StoreOk, Advance;
    var v := Apply(w, Submit(k, request));
    forall j | j in v.locals ensures LocalOk(v.store, v.locals[j]) {
      assert j in w.locals ==> LocalOk(w.store, w.locals[j]);
    }
  }

  lemma {:induction false} RunKeepsInv(w: World, events: seq<Event>)
    requires Inv(w)
    ensures Inv(Run(w, events)) && Later(w.store, Run(w, events).store)
    decreases |events|
  {
    hide Inv, Later, Apply;
    if events == [] {
      LaterSelf(w.store);
    } else {
      StepKeepsInv(w, events[0]);
      RunKeepsInv(Apply(w, events[0]), events[1..]);
      LaterTwice(w.store, Apply(w, events[0]).store, Run(w, events).store);
    }
  }

  lemma LaterSelf(s: Store)
    ensures Later(s, s)
  {}

  lemma LaterTwice(s: Store, t: Store, u: Store)
    requires Later(s, t) && Later(t, u)
    ensures Later(s, u)
  {
    forall id | id in s.cases ensures CaseLater(s.cases[id], u.cases[id]) {
      assert CaseLater(s.cases[id], t.cases[id]) && CaseLater(t.cases[id], u.cases[id]);
    }
  }

  /** Over every run a case is resolved at most once, never by the agent who raised it, and, if
      anyone had claimed it, by the agent whose claim it was. */
  lemma ResolvedOnceByAnother(now: int, events: seq<Event>, j: nat, k: nat)
    requires j < |Run(Initial(now), events).store.decisions| && k < |Run(Initial(now), events).store.decisions|
    ensures var s := Run(Initial(now), events).store;
      var d := s.decisions[j];
      && (d.id == s.decisions[k].id ==> j == k)
      && d.id in s.cases && s.cases[d.id].status == Resolved && s.cases[d.id].resolution == Some(d.resolution)
      && !EqualFold(s.cases[d.id].raisedBy, d.agent)
      && (s.cases[d.id].claimedBy.Some? ==> s.cases[d.id].claimedBy == Some(d.agent))
  {
    RunKeepsInv(Initial(now), events);
    var s := Run(Initial(now), events).store;
    assert Stands(s, s.decisions[j]) && CaseOk(s, s.decisions[j].id);
  }

  /** A resolution, a cancellation and a first claim are final: no continuation of a run changes
      them. */
  lemma DecisionsAreFinal(now: int, events: seq<Event>, more: seq<Event>, id: CaseId)
    requires id in Run(Initial(now), events).store.cases
    ensures var c := Run(Initial(now), events).store.cases[id];
      var t := Run(Run(Initial(now), events), more).store;
      id in t.cases && (Closed(c) ==> t.cases[id] == c)
      && (c.claimedBy.Some? ==> t.cases[id].claimedBy == c.claimedBy)
  {
    hide Run, Initial;
    InitialIsFine(now);
    RunKeepsInv(Initial(now), events);
    RunKeepsInv(Run(Initial(now), events), more);
    var s, t := Run(Initial(now), events).store, Run(Run(Initial(now), events), more).store;
    assert CaseLater(s.cases[id], t.cases[id]);
  }

  lemma InitialIsFine(now: int)
    ensures Inv(Initial(now))
  {}

  /** In every reachable state, also one in which requests have stopped half way: each session
      moved by this path was at VIDEO_CALL when read, and its case is stored as approved. */
  lemma TransfersAreApproved(now: int, events: seq<Event>, k: nat)
    requires k < |Run(Initial(now), events).store.transfers|
    ensures var s := Run(Initial(now), events).store;
      IsApproved(s, s.transfers[k].id, s.transfers[k].session) && s.transfers[k].seen == VideoCall
  {
    RunKeepsInv(Initial(now), events);
    var s := Run(Initial(now), events).store;
    assert TransferOk(s, s.transfers[k]);
  }

  /** The only step of this path that touches a session moves it to CREDENTIALS, for a case that
      is already approved. */
  lemma SessionsMoveOnlyByApproval(w: World, k: Ticket, i: Inputs)
    requires Inv(w) && k in w.locals && Apply(w, Act(k, i)).store.rows != w.store.rows
    ensures var l := w.locals[k];
      var t := Apply(w, Act(k, i)).store;
      && l.phase.Moving? && IsApproved(w.store, l.request.id, l.phase.read.session)
      && t.rows.Keys == w.store.rows.Keys
      && (forall x :: x in t.rows && x != l.phase.read.session ==> t.rows[x] == w.store.rows[x])
      && t.rows[l.phase.read.session].step == Credentials && t.rows[l.phase.read.session].videoCall
  {
    hide StoreOk;
    assert LocalOk(w.store, w.locals[k]);
  }

  // --- What a refused update is answered with ---

  /** An agent whose update changed nothing is told the truth by a second read that answers: the
      case is closed, or somebody holds it; and whoever meant to resolve it is not the holder. */
  lemma RefusalsAreTrue(now: int, events: seq<Event>, k: Ticket, i: Inputs)
    requires var w := Run(Initial(now), events); k in w.locals && w.locals[k].phase.Rereading? && i.reread
    ensures var w := Run(Initial(now), events);
      var r := w.locals[k].request;
      var phase := Apply(w, Act(k, i)).locals[k].phase;
      && r.id in w.store.cases
      && var c := w.store.cases[r.id];
      && (phase == Over(AlreadyClosed) <==> Closed(c))
      && (phase == Over(ClaimedByOther) <==> c.status == InReview && c.claimedBy.Some?)
      && (phase == Over(ClaimedByOther) && r.action.Resolve? ==> c.claimedBy.value != r.agent)
  {
    hide Run, Initial;
    InitialIsFine(now);
    RunKeepsInv(Initial(now), events);
    var w := Run(Initial(now), events);
    assert LocalOk(w.store, w.locals[k]);
    assert CaseOk(w.store, w.locals[k].request.id);
  }

  // --- Steps that take a session back ---

  function StepOf(w: World, x: SessionId): nat
    requires x in w.store.rows
  {
    StepIndex(w.store.rows[x].step)
  }

  /** The write does not look at the step it overwrites: a request takes a session back if and
      only if its update takes effect on a row that has gone past CREDENTIALS since it was read
      at VIDEO_CALL. */
  lemma MovesBackExactly(w: World, k: Ticket, i: Inputs, x: SessionId)
    requires Inv(w) && k in w.locals && x in w.store.rows
    ensures var v := Apply(w, Act(k, i));
      && x in v.store.rows
      && (StepOf(v, x) < StepOf(w, x) <==>
          w.locals[k].phase.Moving? && w.locals[k].phase.read.session == x && i.update != Refused
          && StepIndex(Credentials) < StepOf(w, x))
    ensures w.locals[k].phase.Moving? ==> w.locals[k].phase.copy.step == VideoCall
  {
    hide StoreOk;
    assert LocalOk(w.store, w.locals[k]);
    if Apply(w, Act(k, i)).store.rows != w.store.rows {
      SessionsMoveOnlyByApproval(w, k, i);
    }
  }
}
