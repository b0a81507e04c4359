/** What every interleaving of liveness submissions keeps. */
module LivenessSafety {
  import opened Basics
  import opened Onboarding
  import opened LivenessProtocol
  import Checks = LivenessChecks

  // --- What every run keeps ---

  /** Some passing judgement was of a challenge issued to this session and device. */
  predicate Earned(judged: seq<Judgement>, x: SessionId, device: string) {
    exists k :: 0 <= k < |judged| && judged[k].passed && judged[k].challenge.session == x
                && judged[k].challenge.device == device
  }

  /** A copy of session `x`, in the table, in the cache or in a submission's hands. */
  predicate CopyOk(s: Store, x: SessionId, copy: Session) {
    && x in s.rows && copy.device == s.rows[x].device
    && (copy.biometric ==> Earned(s.judged, x, copy.device))
  }

  function CopyOf(p: Phase): Option<Session> {
    match p
    case Checked(copy) => Some(copy)
    case Holding(copy, _) => Some(copy)
    case Passing(copy) => Some(copy)
    case Advancing(copy) => Some(copy)
    case Publishing(copy) => Some(copy)
    case Routing(copy) => Some(copy)
    case RoutePublishing(copy) => Some(copy)
    case _ => None
  }

  predicate LocalOk(s: Store, l: Local) {
    && (CopyOf(l.phase).Some? ==> CopyOk(s, l.submission.session, CopyOf(l.phase).value))
    && (l.phase.Checked? || l.phase.Holding? ==> CopyOf(l.phase).value.device == l.submission.device)
    && (l.phase.Advancing? || l.phase.Publishing? ==> l.phase.copy.biometric)
    && (l.phase.Passing? ==> Earned(s.judged, l.submission.session, l.phase.copy.device))
    && (l.phase.Holding? ==> Spent(s, l.phase.challenge) && forall k :: 0 <= k < |s.judged| ==>
          s.judged[k].challenge.id != l.phase.challenge.id)
  }

  predicate Spent(s: Store, c: Checks.Challenge) {
    c.id in s.issued && s.issued[c.id] == c && c.id !in s.challenges
  }

  predicate StoreOk(s: Store) {
    && (forall x {:trigger CopyOk(s, x, s.rows[x])} :: x in s.rows ==> CopyOk(s, x, s.rows[x]))
    && (forall x {:trigger CopyOk(s, x, s.cache[x])} :: x in s.cache ==> CopyOk(s, x, s.cache[x]))
    && (forall id {:trigger s.challenges[id]} :: id in s.challenges ==>
          s.challenges[id].id == id && id in s.issued && s.issued[id] == s.challenges[id])
    && (forall k {:trigger s.judged[k]} :: 0 <= k < |s.judged| ==> Spent(s, s.judged[k].challenge))
    && (forall j, k {:trigger s.judged[j], s.judged[k]} :: 0 <= j < k < |s.judged| ==>
          s.judged[j].challenge.id != s.judged[k].challenge.id)
  }

  /** What another step may have done to the store, as far as a waiting submission is concerned. */
  predicate Later(s: Store, t: Store) {
    && s.rows.Keys <= t.rows.Keys && (forall x {:trigger t.rows[x]} :: x in s.rows ==>
       t.rows[x].device == s.rows[x].device)
    && s.judged <= t.judged && s.issued.Keys <= t.issued.Keys
    && (forall id {:trigger t.issued[id]} :: id in s.issued ==> t.issued[id] == s.issued[id])
    && (forall id {:trigger id in t.challenges} :: id in t.challenges && id in s.issued ==> id in s.challenges)
  }

  lemma EarnedStays(s: seq<Judgement>, t: seq<Judgement>, x: SessionId, device: string)
    requires s <= t && Earned(s, x, device)
    ensures Earned(t, x, device)
  {
    var k :| 0 <= k < |s| && s[k].passed && s[k].challenge.session == x && s[k].challenge.device == device;
    assert t[k] == s[k];
  }

  lemma CopyStays(s: Store, t: Store, x: SessionId, copy: Session)
    requires CopyOk(s, x, copy) && Later(s, t)
    ensures CopyOk(t, x, copy)
  {
    if copy.biometric {
      EarnedStays(s.judged, t.judged, x, copy.device);
    }
  }

  /** A step by someone else, which judged nobody's held challenge. */
  lemma LocalStays(s: Store, t: Store, l: Local)
    requires LocalOk(s, l) && Later(s, t)
    requires l.phase.Holding? ==> forall k :: |s.judged| <= k < |t.judged| ==>
               t.judged[k].challenge.id != l.phase.challenge.id
    ensures LocalOk(t, l)
  {
    var x := l.submission.session;
    if CopyOf(l.phase).Some? {
      CopyStays(s, t, x, CopyOf(l.phase).value);
    }
    if l.phase.Passing? {
      EarnedStays(s.judged, t.judged, x, l.phase.copy.device);
    }
  }

  lemma CacheStoreKeeps(s: Store, x: SessionId, copy: Session)
    requires StoreOk(s) && CopyOk(s, x, copy)
    ensures StoreOk(CacheStore(s, x, copy)) && Later(s, CacheStore(s, x, copy))
  {
    var t := CacheStore(s, x, copy);
    forall y | y in t.rows ensures CopyOk(t, y, t.rows[y]) {
      assert CopyOk(s, y, s.rows[y]);
    }
    forall y | y in t.cache ensures CopyOk(t, y, t.cache[y]) {
      assert y == x || CopyOk(s, y, s.cache[y]);
    }
  }

  lemma UpdateStepKeeps(s: Store, x: SessionId, step: Step, copy: Session, o: Outcome)
    requires StoreOk(s) && CopyOk(s, x, copy)
    ensures StoreOk(UpdateStep(s, x, step, copy, o)) && Later(s, UpdateStep(s, x, step, copy, o))
  {
    hide Earned;
    var t := UpdateStep(s, x, step, copy, o);
    forall y | y in t.rows ensures CopyOk(t, y, t.rows[y]) {
      assert CopyOk(s, y, s.rows[y]);
    }
    forall y | y in t.cache ensures CopyOk(t, y, t.cache[y]) {
      assert CopyOk(s, y, s.cache[y]);
    }
  }

  lemma ResolveKeeps(s: Store, x: SessionId, r: Reads)
    requires StoreOk(s)
    ensures var (t, found) := Resolve(s, x, r);
      && StoreOk(t) && Later(s, t) && t.issued == s.issued && t.judged == s.judged && t.challenges == s.challenges
      && (found.Some? ==> CopyOk(t, x, found.value))
  {
    if x in s.cache {
      assert CopyOk(s, x, s.cache[x]);
    }
    if x in s.rows {
      assert CopyOk(s, x, s.rows[x]);
      CacheStoreKeeps(s, x, s.rows[x]);
      CopyStays(s, CacheStore(s, x, s.rows[x]), x, s.rows[x]);
    }
  }

  /** One step of one submission keeps the store and the submission in order. */
  predicate MoveOk(s: Store, l: Local, t: Store, m: Local) {
    && StoreOk(t) && Later(s, t) && LocalOk(t, m) && m.submission == l.submission
    && (forall k {:trigger t.judged[k]} :: |s.judged| <= k < |t.judged| ==>
          l.phase.Holding? && t.judged[k].challenge == l.phase.challenge)
    && (m.phase.Holding? ==> m.phase.challenge.id in s.challenges)
  }

  lemma ArriveKeeps(s: Store, l: Local, i: Inputs)
    requires StoreOk(s) && l.phase.Arriving?
    ensures var (t, m) := Arrive(s, l, i); MoveOk(s, l, t, m)
  {
    hide Resolve, StoreOk, Later, CopyOk;
    ResolveKeeps(s, l.submission.session, i.first);
    var (t, m) := Arrive(s, l, i);
    assert t == Resolve(s, l.submission.session, i.first).0;
    assert LocalOk(t, m);
  }

  lemma TakenKeeps(s: Store, id: ChallengeId)
    requires StoreOk(s)
    ensures var t := s.(challenges := s.challenges - {id}); StoreOk(t) && Later(s, t)
  {
    hide Earned;
    var t := s.(challenges := s.challenges - {id});
    forall y | y in t.rows ensures CopyOk(t, y, t.rows[y]) {
      assert CopyOk(s, y, s.rows[y]);
    }
    forall y | y in t.cache ensures CopyOk(t, y, t.cache[y]) {
      assert CopyOk(s, y, s.cache[y]);
    }
    forall k | 0 <= k < |t.judged| ensures Spent(t, t.judged[k].challenge) {
      assert Spent(s, s.judged[k].challenge);
    }
  }

  /** A challenge still in the store has not been judged. */
  lemma HeldIsUnjudged(s: Store, id: ChallengeId)
    requires StoreOk(s) && id in s.challenges
    ensures var t := s.(challenges := s.challenges - {id}); Spent(t, s.challenges[id])
    ensures forall k :: 0 <= k < |s.judged| ==> s.judged[k].challenge.id != s.challenges[id].id
  {
    forall k | 0 <= k < |s.judged| ensures s.judged[k].challenge.id != s.challenges[id].id {
      assert Spent(s, s.judged[k].challenge);
    }
  }

  lemma ConsumeKeeps(s: Store, l: Local, i: Inputs)
    requires StoreOk(s) && LocalOk(s, l) && l.phase.Checked?
    ensures var (t, m) := Consume(s, l, i); MoveOk(s, l, t, m)
  {
    var id := l.submission.challenge;
    TakenKeeps(s, id);
    LaterSelf(s);
    CopyStays(s, s.(challenges := s.challenges - {id}), l.submission.session, l.phase.copy);
    if id in s.challenges {
      HeldIsUnjudged(s, id);
    }
    assert StoreOk(s) && id in s.challenges ==> s.challenges[id].id == id;
    hide StoreOk, Earned, Later, Spent;
  }

  lemma LaterSelf(s: Store)
    ensures Later(s, s)
  {}

  lemma JudgedKeeps(s: Store, j: Judgement)
    requires StoreOk(s) && Spent(s, j.challenge)
    requires forall k :: 0 <= k < |s.judged| ==> s.judged[k].challenge.id != j.challenge.id
    ensures var t := s.(judged := s.judged + [j]); StoreOk(t) && Later(s, t)
  {
    hide Earned;
    var t := s.(judged := s.judged + [j]);
    forall y | y in t.rows ensures CopyOk(t, y, t.rows[y]) {
      assert CopyOk(s, y, s.rows[y]);
      CopyStays(s, t, y, s.rows[y]);
    }
    forall y | y in t.cache ensures CopyOk(t, y, t.cache[y]) {
      assert CopyOk(s, y, s.cache[y]);
      CopyStays(s, t, y, s.cache[y]);
    }
    forall k | 0 <= k < |t.judged| ensures Spent(t, t.judged[k].challenge) {
      assert k < |s.judged| ==> Spent(s, s.judged[k].challenge);
    }
  }

  lemma JudgeKeeps(s: Store, l: Local, i: Inputs)
    requires StoreOk(s) && LocalOk(s, l) && l.phase.Holding?
    ensures var (t, m) := Judge(s, l, i); MoveOk(s, l, t, m)
  {
    var (t, m) := Judge(s, l, i);
    LaterSelf(s);
    if t != s {
      var j := t.judged[|s.judged|];
      JudgedKeeps(s, j);
      CopyStays(s, t, l.submission.session, l.phase.copy);
      assert m.phase.Passing? ==> Earned(t.judged, l.submission.session, l.phase.copy.device);
    }
    hide StoreOk, Earned, Later, Spent;
  }

  lemma UpdateKeeps(s: Store, l: Local, i: Inputs)
    requires StoreOk(s) && LocalOk(s, l) && (l.phase.Advancing? || l.phase.Routing?)
    ensures var (t, m) := Move(s, l, i); MoveOk(s, l, t, m)
  {
    hide StoreOk, UpdateStep;
    UpdateStepKeeps(s, l.submission.session, VideoCall, l.phase.copy, i.update);
    UpdateStepJudges(s, l.submission.session, VideoCall, l.phase.copy, i.update);
    CopyStays(s, UpdateStep(s, l.submission.session, VideoCall, l.phase.copy, i.update), l.submission.session,
        l.phase.copy);
  }

  lemma UpdateStepJudges(s: Store, x: SessionId, step: Step, copy: Session, o: Outcome)
    ensures UpdateStep(s, x, step, copy, o).judged == s.judged
  {}

  lemma CacheStoreJudges(s: Store, x: SessionId, copy: Session)
    ensures CacheStore(s, x, copy).judged == s.judged
  {}

  lemma LaterTwice(s: Store, t: Store, u: Store)
    requires Later(s, t) && Later(t, u)
    ensures Later(s, u)
  {}

  lemma RestKeeps(s: Store, l: Local, i: Inputs)
    requires StoreOk(s) && LocalOk(s, l)
    requires l.phase.Passing? || l.phase.Publishing? || l.phase.Failing? || l.phase.Escalating?
             || l.phase.RoutePublishing? || l.phase.Over?
    ensures var (t, m) := Move(s, l, i); MoveOk(s, l, t, m)
  {
    hide StoreOk, Resolve;
    if l.phase.Publishing? || l.phase.RoutePublishing? {
      CacheStoreKeeps(s, l.submission.session, l.phase.copy);
    } else if l.phase.Escalating? {
      ResolveKeeps(s, l.submission.session, i.second);
    }
  }

  lemma MoveKeeps(s: Store, l: Local, i: Inputs)
    requires StoreOk(s) && LocalOk(s, l)
    ensures var (t, m) := Move(s, l, i); MoveOk(s, l, t, m)
  {
    hide StoreOk, LocalOk, MoveOk, Arrive, Consume, Judge;
    match l.phase
    case Arriving => ArriveKeeps(s, l, i);
    case Checked(_) => ConsumeKeeps(s, l, i);
    case Holding(_, _) => JudgeKeeps(s, l, i);
    case Advancing(_) => UpdateKeeps(s, l, i);
    case Routing(_) => UpdateKeeps(s, l, i);
    case _ => RestKeeps(s, l, i);
  }

  predicate Apart(l: Local, m: Local) {
    l.phase.Holding? && m.phase.Holding? ==> l.phase.challenge.id != m.phase.challenge.id
  }

  predicate Inv(w: World) {
    && StoreOk(w.store)
    && (forall k {:trigger LocalOk(w.store, w.locals[k])} :: k in w.locals ==> LocalOk(w.store, w.locals[k]))
    && (forall j, k {:trigger Apart(w.locals[j], w.locals[k])} ::
          j in w.locals && k in w.locals && j != k ==> Apart(w.locals[j], w.locals[k]))
  }

  lemma ActKeeps(w: World, k: Ticket, i: Inputs)
    requires Inv(w) && k in w.locals
    ensures Inv(Apply(w, Act(k, i)))
  {
    hide StoreOk, Move, Later;
    var v := Apply(w, Act(k, i));
    assert LocalOk(w.store, w.locals[k]);
    MoveKeeps(w.store, w.locals[k], i);
    forall j | j in v.locals ensures LocalOk(v.store, v.locals[j]) {
      if j != k {
        assert LocalOk(w.store, w.locals[j]) && Apart(w.locals[j], w.locals[k]);
        LocalStays(w.store, v.store, w.locals[j]);
      }
    }
    forall a, b | a in v.locals && b in v.locals && a != b ensures Apart(v.locals[a], v.locals[b]) {
      assert Apart(w.locals[a], w.locals[b]);
      assert LocalOk(w.store, w.locals[a]) && LocalOk(w.store, w.locals[b]);
    }
  }

  lemma StoreStepKeeps(w: World, t: Store)
    requires Inv(w) && StoreOk(t) && Later(w.store, t) && t.judged == w.store.judged
    ensures Inv(w.(store := t))
  {
    forall j | j in w.locals ensures LocalOk(t, w.locals[j]) {
      assert LocalOk(w.store, w.locals[j]);
      LocalStays(w.store, t, w.locals[j]);
    }
  }

  lemma SubmitKeeps(w: World, k: Ticket, submission: Checks.Submission)
    requires Inv(w)
    ensures Inv(Apply(w, Submit(k, submission)))
  {
    var v := Apply(w, Submit(k, submission));
    forall j | j in v.locals ensures LocalOk(v.store, v.locals[j]) {
      assert j in w.locals ==> LocalOk(w.store, w.locals[j]);
    }
    forall a, b | a in v.locals && b in v.locals && a != b ensures Apart(v.locals[a], v.locals[b]) {
      assert a in w.locals && b in w.locals ==> Apart(w.locals[a], w.locals[b]);
    }
  }

  /** Nothing but copies, challenges or time was lost or gained. */
  lemma PlainStoreOk(s: Store, t: Store)
    requires StoreOk(s) && t.judged == s.judged && t.issued == s.issued
    requires t.challenges.Keys <= s.challenges.Keys
             && (forall id :: id in t.challenges ==> t.challenges[id] == s.challenges[id])
    requires t.cache.Keys <= s.cache.Keys && (forall x :: x in t.cache ==> t.cache[x] == s.cache[x])
    requires s.rows.Keys <= t.rows.Keys && (forall x :: x in s.rows ==> t.rows[x] == s.rows[x])
    requires forall x :: x in t.rows && x !in s.rows ==> !t.rows[x].biometric
    ensures StoreOk(t) && Later(s, t)
  {
    forall x | x in t.rows ensures CopyOk(t, x, t.rows[x]) {
      assert x in s.rows ==> CopyOk(s, x, s.rows[x]);
    }
    forall x | x in t.cache ensures CopyOk(t, x, t.cache[x]) {
      assert CopyOk(s, x, s.cache[x]);
    }
  }

  lemma IssueKeeps(s: Store, x: SessionId, device: string, c: Checks.Challenge, r: Reads, allowed: bool)
    requires StoreOk(s)
    ensures var t := IssueChallenge(s, x, device, c, r, allowed); StoreOk(t) && Later(s, t) && t.judged == s.judged
  {
    LaterSelf(s);
    var t := IssueChallenge(s, x, device, c, r, allowed);
    forall y | y in t.rows ensures CopyOk(t, y, t.rows[y]) {
      assert CopyOk(s, y, s.rows[y]);
    }
    forall y | y in t.cache ensures CopyOk(t, y, t.cache[y]) {
      assert CopyOk(s, y, s.cache[y]);
    }
    forall k | 0 <= k < |t.judged| ensures Spent(t, t.judged[k].challenge) {
      assert Spent(s, s.judged[k].challenge);
    }
  }

  lemma ElsewhereKeeps(s: Store, x: SessionId, step: Step, flags: set<string>, fromCache: bool, publish: bool)
    requires StoreOk(s)
    ensures var t := Elsewhere(s, x, step, flags, fromCache, publish); StoreOk(t) && Later(s, t) && t.judged == s.judged
  {
    hide Earned, UpdateStep, CacheStore;
    if x in s.rows {
      assert CopyOk(s, x, s.rows[x]);
      if x in s.cache {
        assert CopyOk(s, x, s.cache[x]);
      }
      var copy := (if fromCache && x in s.cache then s.cache[x] else s.rows[x]).(step := step, flags := flags);
      assert CopyOk(s, x, copy);
      hide StoreOk;
      UpdateStepKeeps(s, x, step, copy, Done);
      var u := UpdateStep(s, x, step, copy, Done);
      UpdateStepJudges(s, x, step, copy, Done);
      CopyStays(s, u, x, copy);
      CacheStoreKeeps(u, x, copy);
      CacheStoreJudges(u, x, copy);
      LaterTwice(s, u, CacheStore(u, x, copy));
    }
  }

  lemma StepKeepsInv(w: World, e: Event)
    requires Inv(w)
    ensures Inv(Apply(w, e))
  {
    hide StoreOk, LocalOk, Later, Apart, Move, IssueChallenge, Elsewhere;
    match e
    case Act(k, i) => if k in w.locals { ActKeeps(w, k, i); }
    case Submit(k, submission) => SubmitKeeps(w, k, submission);
    case Issue(x, device, c, r, allowed) =>
      IssueKeeps(w.store, x, device, c, r, allowed);
      StoreStepKeeps(w, Apply(w, e).store);
    case OtherService(x, step, flags, fromCache, publish) =>
      ElsewhereKeeps(w.store, x, step, flags, fromCache, publish);
      StoreStepKeeps(w, Apply(w, e).store);
    case _ =>
      PlainStoreOk(w.store, Apply(w, e).store);
      StoreStepKeeps(w, Apply(w, e).store);
  }

  lemma {:induction false} RunKeepsInv(w: World, events: seq<Event>)
    requires Inv(w)
    ensures Inv(Run(w, events))
    decreases |events|
  {
    if events != [] {
      StepKeepsInv(w, events[0]);
      RunKeepsInv(Apply(w, events[0]), events[1..]);
    }
  }

  /** Over every run, whatever interleaves: each challenge is judged for at most one submission,
      and once judged it is gone from the store. */
  lemma JudgedAtMostOnce(now: int, events: seq<Event>, j: nat, k: nat)
    requires j < |Run(Initial(now), events).store.judged| && k < |Run(Initial(now), events).store.judged|
    ensures var s := Run(Initial(now), events).store;
      && (s.judged[j].challenge.id == s.judged[k].challenge.id ==> j == k)
      && s.judged[j].challenge.id !in s.challenges
  {
    RunKeepsInv(Initial(now), events);
    assert Spent(Run(Initial(now), events).store, Run(Initial(now), events).store.judged[j].challenge);
  }

  /** Over every run: the biometric flag is set only after a passing judgement of a challenge
      that was issued for that session and its device. */
  lemma VerifiedOnlyByAPass(now: int, events: seq<Event>, x: SessionId)
    requires x in Run(Initial(now), events).store.rows && Run(Initial(now), events).store.rows[x].biometric
    ensures var s := Run(Initial(now), events).store;
      exists k :: && 0 <= k < |s.judged| && s.judged[k].passed && Spent(s, s.judged[k].challenge)
                  && s.judged[k].challenge.session == x && s.judged[k].challenge.device == s.rows[x].device
  {
    RunKeepsInv(Initial(now), events);
    var s := Run(Initial(now), events).store;
    assert CopyOk(s, x, s.rows[x]);
    var k :| && 0 <= k < |s.judged| && s.judged[k].passed && s.judged[k].challenge.session == x
             && s.judged[k].challenge.device == s.rows[x].device;
    assert Spent(s, s.judged[k].challenge);
  }
}
