/** The single-use challenge protocol: a submission consumes its challenge, is judged once, and
    a pass or an escalation moves the onboarding step. Submissions run interleaved; one step is
    one store call. */
module LivenessProtocol {
  import opened Basics
  import opened Onboarding
  import Checks = LivenessChecks

  type ChallengeId = string
  type Ticket = nat

  /** One submission that reached the provider, with the challenge it was judged against. */
  datatype Judgement = Judgement(challenge: Checks.Challenge, submission: Checks.Submission, passed: bool)

  /** `issued` remembers every challenge ever stored and `judged` every judgement; the code
      keeps neither. */
  datatype Store = Store(
    now: int,
    rows: map<SessionId, Session>,
    cache: map<SessionId, Session>,
    challenges: map<ChallengeId, Checks.Challenge>,
    issued: map<ChallengeId, Checks.Challenge>,
    judged: seq<Judgement>)

  datatype Answer = Accepted | Rejected

  datatype Phase =
    | Arriving
    | Checked(copy: Session)
    | Holding(copy: Session, challenge: Checks.Challenge)
    | Passing(copy: Session)
    | Advancing(copy: Session)
    | Publishing(copy: Session)
    | Failing
    | Escalating
    | Routing(copy: Session)
    | RoutePublishing(copy: Session)
    | Over(answer: Answer)

  datatype Local = Local(submission: Checks.Submission, phase: Phase)

  /** The cache answers or fails, the row is found or not, the backfill takes or does not. */
  datatype Reads = Reads(cache: bool, find: bool, backfill: bool)

  datatype ProviderAnswer = ProviderError | NoVerdict | Judged(verdict: Checks.Verdict)

  /** How everything outside goes for one submission. `blocked`: the attempt tracker says that
      self-service is over. */
  datatype Inputs = Inputs(first: Reads, allowed: bool, consume: Outcome, signature: bool, integrity: Option<bool>,
                           provider: ProviderAnswer, stored: bool, update: Outcome, publish: bool,
                           blocked: bool, second: Reads)

  // --- Sessions, through the cache ---

  function CacheStore(s: Store, x: SessionId, copy: Session): Store {
    s.(cache := Cached(s.cache, x, copy, s.now))
  }

  function Resolve(s: Store, x: SessionId, r: Reads): (Store, Option<Session>) {
    if r.cache && x in s.cache then (s, if Expired(s.cache[x], s.now) then None else Some(s.cache[x]))
    else if !r.find || x !in s.rows || Expired(s.rows[x], s.now) then (s, None)
    else (if r.backfill then CacheStore(s, x, s.rows[x]) else s, Some(s.rows[x]))
  }

  function UpdateStep(s: Store, x: SessionId, step: Step, copy: Session, o: Outcome): Store {
    s.(rows := StepWritten(s.rows, x, step, copy, o))
  }

  predicate Updated(s: Store, x: SessionId, o: Outcome) { o == Done && x in s.rows }

  // --- One step of one submission ---

  function Arrive(s: Store, l: Local, i: Inputs): (Store, Local) {
    var (t, found) := Resolve(s, l.submission.session, i.first);
    if found.None? || found.value.step != Biometric || l.submission.device == ""
       || l.submission.device != found.value.device || !i.allowed
    then (t, l.(phase := Over(Rejected)))
    else (t, l.(phase := Checked(found.value)))
  }

  function Consume(s: Store, l: Local, i: Inputs): (Store, Local)
    requires l.phase.Checked?
  {
    var id := l.submission.challenge;
    var t := if i.consume == Refused then s else s.(challenges := s.challenges - {id});
    if i.consume != Done then (t, l.(phase := Over(Rejected)))
    else if id !in s.challenges then (t, l.(phase := Failing))
    else (t, l.(phase := Holding(l.phase.copy, s.challenges[id])))
  }

  predicate BoundTo(c: Checks.Challenge, s: Checks.Submission) {
    c.session == s.session && c.device == s.device && c.nonce == s.nonce
  }

  /** Binding, expiry, signature and integrity first; then the provider judges. */
  function Judge(s: Store, l: Local, i: Inputs): (Store, Local)
    requires l.phase.Holding?
  {
    var c := l.phase.challenge;
    if !BoundTo(c, l.submission) || c.expiresAt < s.now || !i.signature then (s, l.(phase := Failing))
    else if i.integrity.None? then (s, l.(phase := Over(Rejected)))
    else if !i.integrity.value then (s, l.(phase := Failing))
    else
      var passed := i.provider.Judged? && i.provider.verdict.Passed?;
      (s.(judged := s.judged + [Judgement(c, l.submission, passed)]),
       l.(phase := if passed then Passing(l.phase.copy) else Failing))
  }

  function StoreResult(s: Store, l: Local, i: Inputs): (Store, Local)
    requires l.phase.Passing?
  {
    (s, l.(phase := if i.stored then Advancing(l.phase.copy.(biometric := true)) else Over(Rejected)))
  }

  function Advance(s: Store, l: Local, i: Inputs): (Store, Local)
    requires l.phase.Advancing?
  {
    var x := l.submission.session;
    (UpdateStep(s, x, VideoCall, l.phase.copy, i.update),
     l.(phase := if Updated(s, x, i.update) then Publishing(l.phase.copy.(step := VideoCall)) else Over(Rejected)))
  }

  function Publish(s: Store, l: Local, i: Inputs): (Store, Local)
    requires l.phase.Publishing?
  {
    (if i.publish then CacheStore(s, l.submission.session, l.phase.copy) else s, l.(phase := Over(Accepted)))
  }

  function Fail(s: Store, l: Local, i: Inputs): (Store, Local) {
    (s, l.(phase := if i.blocked then Escalating else Over(Rejected)))
  }

  function Escalate(s: Store, l: Local, i: Inputs): (Store, Local) {
    var (t, found) := Resolve(s, l.submission.session, i.second);
    (t, l.(phase := if found.Some? then Routing(found.value) else Over(Rejected)))
  }

  function Route(s: Store, l: Local, i: Inputs): (Store, Local)
    requires l.phase.Routing?
  {
    var x := l.submission.session;
    (UpdateStep(s, x, VideoCall, l.phase.copy, i.update),
     l.(phase := if Updated(s, x, i.update) then RoutePublishing(l.phase.copy.(step := VideoCall)) else Over(Rejected)))
  }

  function RoutePublish(s: Store, l: Local, i: Inputs): (Store, Local)
    requires l.phase.RoutePublishing?
  {
    (if i.publish then CacheStore(s, l.submission.session, l.phase.copy) else s, l.(phase := Over(Rejected)))
  }

  function Move(s: Store, l: Local, i: Inputs): (Store, Local) {
    match l.phase
    case Arriving => Arrive(s, l, i)
    case Checked(_) => Consume(s, l, i)
    case Holding(_, _) => Judge(s, l, i)
    case Passing(_) => StoreResult(s, l, i)
    case Advancing(_) => Advance(s, l, i)
    case Publishing(_) => Publish(s, l, i)
    case Failing => Fail(s, l, i)
    case Escalating => Escalate(s, l, i)
    case Routing(_) => Route(s, l, i)
    case RoutePublishing(_) => RoutePublish(s, l, i)
    case Over(_) => (s, l)
  }

  // --- Runs ---

  datatype World = World(store: Store, locals: map<Ticket, Local>)

  datatype Event =
    | Act(ticket: Ticket, inputs: Inputs)
    | Submit(ticket: Ticket, submission: Checks.Submission)
    | Create(session: SessionId, row: Session)
    | Issue(session: SessionId, device: string, challenge: Checks.Challenge, lookup: Reads, allowed: bool)
    | OtherService(session: SessionId, step: Step, flags: set<string>, fromCache: bool, publish: bool)
    | LoseChallenge(id: ChallengeId)
    | LoseCached(session: SessionId)
    | Tick(now: int)

  /** A challenge is minted under a new id for the session and the device it belongs to. This lookup puts
      nothing into the cache. */
  function IssueChallenge(s: Store, x: SessionId, device: string, c: Checks.Challenge, r: Reads, allowed: bool): Store {
    var (t, found) := Resolve(s, x, r.(backfill := false));
    if found.None? || found.value.step != Biometric || device == "" || device != found.value.device || !allowed
       || c.id in s.issued || c.session != x || c.device != device
    then t
    else t.(challenges := t.challenges[c.id := c], issued := t.issued[c.id := c])
  }

  /** Any other service in use moving the session, from the row or from the cached copy: it keeps
      the biometric flag of the copy it worked on. */
  function Elsewhere(s: Store, x: SessionId, step: Step, flags: set<string>, fromCache: bool, publish: bool): Store {
    if x !in s.rows then s
    else
      var copy := (if fromCache && x in s.cache then s.cache[x] else s.rows[x]).(step := step, flags := flags);
      var t := UpdateStep(s, x, step, copy, Done);
      if publish then CacheStore(t, x, copy) else t
  }

  function Apply(w: World, e: Event): World {
    match e
    case Act(k, i) =>
      if k !in w.locals then w
      else
        var (t, l) := Move(w.store, w.locals[k], i);
        World(t, w.locals[k := l])
    case Submit(k, submission) =>
      if k in w.locals then w else w.(locals := w.locals[k := Local(submission, Arriving)])
    case Create(x, row) =>
      if x in w.store.rows || row.biometric then w
      else w.(store := w.store.(rows := w.store.rows[x := row]))
    case Issue(x, device, c, r, allowed) => w.(store := IssueChallenge(w.store, x, device, c, r, allowed))
    case OtherService(x, step, flags, fromCache, publish) =>
      w.(store := Elsewhere(w.store, x, step, flags, fromCache, publish))
    case LoseChallenge(id) => w.(store := w.store.(challenges := w.store.challenges - {id}))
    case LoseCached(x) => w.(store := w.store.(cache := w.store.cache - {x}))
    case Tick(now) => w.(store := w.store.(now := if now > w.store.now then now else w.store.now))
  }

  function Run(w: World, events: seq<Event>): World
    decreases |events|
  {
    if events == [] then w else Run(Apply(w, events[0]), events[1..])
  }

  function Initial(now: int): World {
    World(Store(now, map[], map[], map[], map[], []), map[])
  }
}
