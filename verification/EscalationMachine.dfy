/** Tier-2 escalations: competing reviewers claim and resolve cases, and an approval moves the
    applicant's session. Requests run interleaved; one step is one store call. */
module EscalationMachine {
  import opened Basics
  import opened Onboarding

  type CaseId = string
  type Agent = string
  type Ticket = nat

  datatype Resolution = Approved | Rejected

  datatype Status = Pending | InReview | Resolved | Cancelled

  datatype Case = Case(session: SessionId, raisedBy: Agent, status: Status, claimedBy: Option<Agent>,
                       resolvedBy: Option<Agent>, resolution: Option<Resolution>)

  /** A resolution that reached the table. */
  datatype Decision = Decision(id: CaseId, agent: Agent, resolution: Resolution)

  /** A session moved by an approval: what the service had read, and what it moved from. */
  datatype Transfer = Transfer(id: CaseId, session: SessionId, seen: Step)

  /** `decisions` and `transfers` remember what was written; the code keeps neither. */
  datatype Store = Store(now: int, cases: map<CaseId, Case>, rows: map<SessionId, Session>,
                         cache: map<SessionId, Session>, decisions: seq<Decision>, transfers: seq<Transfer>)

  datatype Action = Claim | Resolve(resolution: Resolution)

  /** `wellFormed`: a known action, and for a resolution its notes and, if it rejects, a known
      reason. */
  datatype Request = Request(id: CaseId, agent: Agent, action: Action, wellFormed: bool)

  datatype Answer = Ok | Invalid | NotFound | AlreadyClosed | SelfResolve | ClaimedByOther | Failed

  datatype Phase =
    | Reading
    | Claiming(read: Case)
    | Resolving(read: Case, resolution: Resolution)
    | Rereading
    | Responding(read: Case, outcome: Option<Resolution>)
    | Moving(read: Case, copy: Session)
    | Publishing(read: Case, copy: Session)
    | Over(answer: Answer)

  datatype Local = Local(request: Request, phase: Phase)

  datatype Inputs = Inputs(find: bool, write: Outcome, reread: bool, session: bool, update: Outcome, publish: bool)

  /** Agent ids are compared without regard to case by the service and exactly by the table. */
  function Fold(a: Agent): string {
    seq(|a|, i requires 0 <= i < |a| => if 'A' <= a[i] <= 'Z' then (a[i] as int + 32) as char else a[i])
  }

  predicate EqualFold(a: Agent, b: Agent) { Fold(a) == Fold(b) }

  // --- One step of one request ---

  function Read(s: Store, l: Local, i: Inputs): (Store, Local) {
    var r := l.request;
    var phase :=
      if r.id == "" || r.agent == "" || !r.wellFormed then Over(Invalid)
      else if !i.find then Over(Failed)
      else if r.id !in s.cases then Over(NotFound)
      else
        var c := s.cases[r.id];
        if c.status == Resolved || c.status == Cancelled then Over(AlreadyClosed)
        else if EqualFold(c.raisedBy, r.agent) then Over(SelfResolve)
        else if c.status == InReview && !(c.claimedBy.Some? && EqualFold(c.claimedBy.value, r.agent))
        then Over(ClaimedByOther)
        else match r.action
          case Claim => if c.status == InReview then Responding(c, None) else Claiming(c)
          case Resolve(resolution) => Resolving(c, resolution);
    (s, l.(phase := phase))
  }

  /** UPDATE … WHERE status = PENDING. */
  predicate Claimable(s: Store, id: CaseId) {
    id in s.cases && s.cases[id].status == Pending
  }

  function WriteClaim(s: Store, l: Local, i: Inputs): (Store, Local)
    requires l.phase.Claiming?
  {
    var r := l.request;
    var hit := Claimable(s, r.id);
    var t := if i.write == Refused || !hit then s
             else s.(cases := s.cases[r.id := s.cases[r.id].(status := InReview, claimedBy := Some(r.agent))]);
    var phase := if i.write != Done then Over(Failed)
                 else if !hit then Rereading
                 else Responding(l.phase.read.(status := InReview, claimedBy := Some(r.agent)), None);
    (t, l.(phase := phase))
  }

  /** UPDATE … WHERE status IN (PENDING, IN_REVIEW) AND (claimed_by IS NULL OR = the resolver). */
  predicate Resolvable(s: Store, id: CaseId, agent: Agent) {
    && id in s.cases && (s.cases[id].status == Pending || s.cases[id].status == InReview)
    && (s.cases[id].claimedBy.None? || s.cases[id].claimedBy.value == agent)
  }

  function WriteResolution(s: Store, l: Local, i: Inputs): (Store, Local)
    requires l.phase.Resolving?
  {
    var r := l.request;
    var hit := Resolvable(s, r.id, r.agent);
    var resolution := l.phase.resolution;
    var t := if i.write == Refused || !hit then s
             else s.(cases := s.cases[r.id := s.cases[r.id].(status := Resolved, resolvedBy := Some(r.agent),
                                                            resolution := Some(resolution))],
                     decisions := s.decisions + [Decision(r.id, r.agent, resolution)]);
    var phase := if i.write != Done then Over(Failed)
                 else if !hit then Rereading
                 else Responding(l.phase.read, Some(resolution));
    (t, l.(phase := phase))
  }

  function Reread(s: Store, l: Local, i: Inputs): (Store, Local) {
    var id := l.request.id;
    (s, l.(phase := Over(if i.reread && id in s.cases && s.cases[id].status == InReview then ClaimedByOther
                         else AlreadyClosed)))
  }

  ghost function Respond(s: Store, l: Local, i: Inputs): (Store, Local)
    requires l.phase.Responding?
  {
    var x := l.phase.read.session;
    var phase :=
      if !i.session || x !in s.rows || l.phase.outcome != Some(Approved) || Expired(s.rows[x], s.now)
         || !CanTransition(s.rows[x].step, Credentials)
      then Over(Ok)
      else Moving(l.phase.read, s.rows[x]);
    (s, l.(phase := phase))
  }

  function Move(s: Store, l: Local, i: Inputs): (Store, Local)
    requires l.phase.Moving?
  {
    var x := l.phase.read.session;
    var copy := l.phase.copy.(step := Credentials, videoCall := true);
    var written := i.update != Refused && x in s.rows;
    (s.(rows := StepWritten(s.rows, x, Credentials, copy, i.update),
        transfers := if written then s.transfers + [Transfer(l.request.id, x, l.phase.copy.step)] else s.transfers),
     l.(phase := if written && i.update == Done then Publishing(l.phase.read, copy) else Over(Failed)))
  }

  function Publish(s: Store, l: Local, i: Inputs): (Store, Local)
    requires l.phase.Publishing?
  {
    (if i.publish then s.(cache := Cached(s.cache, l.phase.read.session, l.phase.copy, s.now)) else s,
     l.(phase := Over(Ok)))
  }

  ghost function Advance(s: Store, l: Local, i: Inputs): (Store, Local) {
    match l.phase
    case Reading => Read(s, l, i)
    case Claiming(_) => WriteClaim(s, l, i)
    case Resolving(_, _) => WriteResolution(s, l, i)
    case Rereading => Reread(s, l, i)
    case Responding(_, _) => Respond(s, l, i)
    case Moving(_, _) => Move(s, l, i)
    case Publishing(_, _) => Publish(s, l, i)
    case Over(_) => (s, l)
  }

  // --- Runs ---

  datatype World = World(store: Store, locals: map<Ticket, Local>)

  /** `Elsewhere` is any other service writing a session; a request may stop at any step. */
  datatype Event =
    | Act(ticket: Ticket, inputs: Inputs)
    | Submit(ticket: Ticket, request: Request)
    | Raise(id: CaseId, session: SessionId, agent: Agent)
    | Cancel(id: CaseId)
    | Elsewhere(session: SessionId, row: Session)
    | LoseCached(session: SessionId)
    | Tick(now: int)

  ghost function Apply(w: World, e: Event): World {
    match e
    case Act(k, i) =>
      if k !in w.locals then w
      else
        var (t, l) := Advance(w.store, w.locals[k], i);
        World(t, w.locals[k := l])
    case Submit(k, request) => if k in w.locals then w else w.(locals := w.locals[k := Local(request, Reading)])
    case Raise(id, x, agent) =>
      if id in w.store.cases then w
      else w.(store := w.store.(cases := w.store.cases[id := Case(x, agent, Pending, None, None, None)]))
    case Cancel(id) =>
      if id in w.store.cases && (w.store.cases[id].status == Pending || w.store.cases[id].status == InReview)
      then w.(store := w.store.(cases := w.store.cases[id := w.store.cases[id].(status := Cancelled)]))
      else w
    case Elsewhere(x, row) => w.(store := w.store.(rows := w.store.rows[x := row]))
    case LoseCached(x) => w.(store := w.store.(cache := w.store.cache - {x}))
    case Tick(now) => w.(store := w.store.(now := if now > w.store.now then now else w.store.now))
  }

  ghost function Run(w: World, events: seq<Event>): World
    decreases |events|
  {
    if events == [] then w else Run(Apply(w, events[0]), events[1..])
  }

  function Initial(now: int): World {
    World(Store(now, map[], map[], map[], [], []), map[])
  }
}
